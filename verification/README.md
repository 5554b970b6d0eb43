# Order-case stores, audit chain and agent harness

A Dafny model of the stateful heart of the order-case system: the hash-chained
audit log, the case store with its correlation index and classification history,
child records and their pagination, the status roll-up, the orphan backfill and
merge, the bounded agent loop and the harness around it, compaction, the replay
buffer, the dashboard roll-ups and precedent matching.

Every stateful part has two layers. The state functions (`Cases`, `Children`,
`RollUp`, `Backfill`, `Merge`, `AuditChain`, ...) say what one call does to plain
values, and the theorems about runs, round trips and conservation are proved about
them. The classes and loops (`Stores`, `Passes`, `AgentLoop`, `Harness`,
`HarnessStep`, `PubSub`, `Compaction`, `ControlTower`) follow the imperative code
and are proved equal to those functions, errors included. Randomness, clocks, SHA-256, canonical
JSON, `math.sqrt`, the LLM provider and the tools are parameters.

| file | part |
|---|---|
| `AuditChain.dfy` | hash-chained audit log and tamper evidence |
| `Cases.dfy`, `CaseIndex.dfy`, `CaseHistory.dfy` | case store operations; correlation index; classification trail and close guard |
| `Interleaving.dfy` | `lookup_or_create` as two lock sections among other threads |
| `Records.dfy`, `Children.dfy`, `Paging.dfy` | child-record table, pagination; create and update with history rows; pagination while records change |
| `Fields.dfy` | what each call of the two stores writes, refuses and leaves alone, field by field |
| `RollUp.dfy`, `EventIntake.dfy` | status aggregation and `closed_at`; the materialise path |
| `Backfill.dfy`, `Merge.dfy`, `Passes.dfy` | the two backfill passes, as functions and as loops over live stores |
| `Stores.dfy` | the two stores as objects |
| `AgentLoop.dfy`, `Harness.dfy`, `HarnessStep.dfy` | budgeted agent loop; locks, tiers and replay log under interleaving; one whole step |
| `Compaction.dfy`, `PubSub.dfy`, `Precedents.dfy`, `Correlate.dfy`, `ControlTower.dfy` | self-contained algorithms |
| `Model.dfy`, `Wrappers.dfy`, `Sequences.dfy`, `Ordering.dfy`, `Text.dfy` | entities and shared helpers |

## Where the code and its own words differ

The model follows the code. Each point is a theorem below.

- `log_audit_event` promises that a later reader can verify that nothing was deleted or
  mutated (`api/store.py:440-441`). Three changes go unnoticed by a tenant's walk: deleting the
  tail of its log, editing its last event and recomputing the hash, and moving its last event to
  another tenant: `AuditChain.SharedDeletionBreaksAt` and `AuditChain.SharedEditBreaksAt`, which
  give what every tenant's walk reports for every change of one row, with an input in
  `AuditChain.MovedEventPasses`.
- `CaseStore.update` says that validators fire (`api/store.py:1179-1180`). `model_copy`
  runs none: `Cases.UpdateStoresInvalidIff`, with an input in `Cases.UpdateStoresAnything`.
- It also says that the history row is atomic with the change (`api/store.py:1194-1199`). An
  invalid `classifier_type` raises after the case is written, and likewise in `lookup_or_create`,
  where a list among the keys also raises after the keys before it have been registered:
  `Cases.RaisesDirtyIff`, with inputs in `Cases.UpdateIsNotAtomic`, `Cases.LookupIsNotAtomic`
  and `Cases.ListKeyStopsRegistering`.
- `ExceptionStore.update` promises that a failed call leaves the record untouched
  (`api/store.py:353-357`). A dead parent, a missing supergroup or an invalid classifier type
  raises after the record is changed: `Children.UpdateRaisesDirtyIff`, with an input in
  `Children.UpdateIsNotClean`.
- `register_correlation` does not check that the case belongs to the tenant:
  `CaseIndex.StepKeepsIndexIff`, with an input in `CaseIndex.CrossTenantKeySpoils`.
- Only a roll-up clears `closed_at` when a case reopens (`api/case_resolver.py:360-365`);
  staging an override does not, and the next roll-up may see no change: `RollUp.StaleCloseTimeSurvives`,
  with a run that reaches it in `RollUp.StaleCloseTimeIsReached`.
- The search and the write of `lookup_or_create` are separate lock sections, so two threads can
  open two cases for one PO: `Interleaving.RaceOpensTwoCases`. A run in which no search is
  disturbed equals a run of atomic calls: `Interleaving.UndisturbedRunIsSerial`.
- Merging drops the keys of merged cases instead of re-pointing them, so a merged PO can open a
  second case again: `Merge.MergeDropsKeys`, `Merge.MergedPoKeyReopens`, and from that race in
  `Merge.RaceMergeReopens`.
- The backfill says a second run scans nothing (`agents/backfill.py:86-87`). Skipped records are
  scanned again, but nothing is linked: `Backfill.BackfillIdempotent`. A pass aborts on an event
  from which no case can be opened, because its explicit origin is unknown or a key is no string,
  unless the event finds a case, and always on a key that is a list or object:
  `Backfill.AbortsIff`, with inputs in `Backfill.UnknownOriginAborts` and `Backfill.NumberKeyAborts`.
- Tier changes are called forward-only, but graduation writes the caller's snapshot plus one:
  `Harness.TierFallsIff`. The fall needs a tier-1 snapshot of a tier-3 case, as in
  `Harness.TierOneSnapshotFalls`; cases open at tier 2, so no row that was ever stored supplies
  one, and with stored rows, however stale, tiers never fall: `Harness.ReadRowsAreAtLeastTwo`,
  `Harness.TiersNeverFall`. The caller reads its row before the lock is taken
  (`api/routes/exceptions.py:270-281`).
- `get_replay` treats a `since` of 0.0 as absent (`api/pubsub.py:71`) and so loses exactly the held
  events older than 60 seconds: `PubSub.ZeroSinceLosesIff`, with an input in `PubSub.ZeroSinceIsNotEarliest`.
- A status or intent filter and an update between two pages can take the cursor's record off the
  list, and the client is sent back to the start: `Paging.CursorFoundIffListed`, with a walk that
  returns a row twice in `Paging.LostCursorRepeatsRows`.
- The throughput buckets match a record's truncated local time with UTC hours, so a
  record stamped at a part-hour offset is never counted: `ControlTower.HourOfOffset`,
  `ControlTower.ThroughputConserves`. The in-memory store stamps `updated_at` in UTC
  (`api/store.py:377`); such a stamp can only come from a record of another store.
- A page limit below 1 never returns the last row, and a limit of 0 none: `Records.LimitBelowOneLosesLastRow`,
  `Records.ZeroLimitStops`.

## Model

| member | source | states |
|---|---|---|
| `AuditChain.AppendKeepsChains` | api/store.py:456-486 | a write extends only the writer's log, by one event, and a log that verified still does |
| `AuditChain.RunVerifies` | api/store.py:456-526 | after any interleaving of writes every tenant's log verifies and holds exactly that tenant's writes in order |
| `AuditChain.RunLogGrows` | api/store.py:456-496 | every earlier log of a tenant is a prefix of every later one |
| `AuditChain.DigestBindsBody` | api/store.py:477-485 | equal digests mean equal bodies, among bodies on which hash and encoding do not collide |
| `AuditChain.HashPinsHistory` | api/store.py:498-526 | two verifying logs that share a hash anywhere share it at the same index and agree up to there |
| `AuditChain.HashesDistinct` | api/store.py:498-526 | in a verifying log no two events share a hash |
| `AuditChain.LastHashBindsLog` | api/store.py:438-442 | two verifying logs with the same last hash are identical |
| `AuditChain.SelectionBreaksAt` | api/store.py:498-526 | however events are dropped, repeated or rearranged, the walk reports the first one out of place |
| `AuditChain.OnlyPrefixesVerify` | api/store.py:498-526 | the only selections of rows that still verify are the prefixes |
| `AuditChain.DeletionBreaksAt` | api/store.py:498-526 | taking event i out of a walked log is reported at i, except that taking out the last event goes unnoticed |
| `AuditChain.EditBreaksAt` | api/store.py:498-526 | replacing event i of a walked log is reported at i; with a recomputed hash at i + 1, or not at all on the last event |
| `AuditChain.InsertionBreaksAt` | api/store.py:498-526 | an event put into a walked log at i is reported at i unless it fits there, then at i + 1; it escapes only if it fits at the end |
| `AuditChain.SharedEditBreaksAt` | api/store.py:492-526 | for any edit of any row of the shared list, `tenant_id` included, what the walk of every tenant reports |
| `AuditChain.SharedDeletionBreaksAt` | api/store.py:492-526 | a deleted row of the shared list shows to its tenant only, at its place in the tenant's log, and not at all if it was the tenant's last |
| `AuditChain.MovedEventPasses` | api/store.py:492-526 | a tenant's only event handed to another tenant: the first walk verifies, the other breaks at 0, or verifies too if the hash is recomputed |
| `Stores.ExceptionStore.LogAuditEvent` | api/store.py:425-486 | the backward search and append leave the list the append function gives |
| `Stores.ExceptionStore.VerifyAuditChain` | api/store.py:498-526 | the walk returns (True, None) exactly when every link holds, else (False, index of the first bad link) |
| `Stores.ExceptionStore.Create` | api/store.py:212-256 | create adds one record, with the lifecycle its final status maps to, and keeps ids unique |
| `Stores.ExceptionStore.List` | api/store.py:265-298 | filter, stable sort, cursor seek and slice give the page function's page, for negative limits too |
| `Stores.ExceptionStore.Update` | api/store.py:322-397 | record table, case store and result are those of the update function, for every error too; ids and order stay |
| `Records.RowsAreMatches` | api/store.py:273-284 | the listed rows are exactly the matching records |
| `Records.RowsAreOrdered` | api/store.py:284-284 | rows are newest first, and equally old ones stay in insertion order |
| `Records.ListedByFields` | api/store.py:265-320 | which records the filtered list, the children of a case and the orphans hold, field by field; an empty intent filters nothing |
| `Records.PageByLength` | api/store.py:295-298 | a page is a prefix of the rows left of length `limit`, or of all but `-limit` of them; `has_more` iff more rows than `limit` were left |
| `Records.StartsBehindCursor` | api/store.py:286-293 | a request starts behind the cursor's row, or at the first row without a cursor or with an unlisted one |
| `Records.CreateKeepsPlace` | api/store.py:254-293 | a create between two pages leaves the rows ahead of the cursor in place and loses none behind it |
| `Records.PageAdvances` | api/store.py:286-298 | a page with a successor ends exactly where the next one starts; the last page is the rest |
| `Records.EndsAfterPages` | api/store.py:295-298 | over a still table the walk is done after exactly as many requests as there are pages |
| `Records.PaginationEnds` | api/store.py:295-298 | which are at most rows / limit, rounded up |
| `Records.LimitBelowOneLosesLastRow` | api/store.py:295-298 | with a limit below 1, negative ones included, the last row is never returned, however many requests follow |
| `Records.ZeroLimitStops` | api/store.py:295-298 | with limit 0 the walk ends empty although `has_more` may hold |
| `Paging.PaginationIsExact` | api/store.py:265-298 | while only creates happen between pages, following `next_cursor` returns every matching record present at the start exactly once, newest first, and no row twice, also with a filter |
| `Paging.RunsAreHistories` | api/store.py:212-397 | whatever creates and updates are called between the requests, the tables they meet keep every record's id, tenant and place |
| `Paging.CursorFoundIffListed` | api/store.py:286-293 | a request finds its place exactly while the cursor's record still matches the query; otherwise it gets the first page |
| `Paging.EvolvingKeepsPlace` | api/store.py:273-293 | updates and creates leave known rows on their side of a cursor, in the same order |
| `Paging.PaginationUnderUpdates` | api/store.py:265-298 | whatever is updated and created between pages: while the cursor's record stays listed no record is returned twice, and those that match throughout are returned exactly once, in order |
| `Paging.UnfilteredPaginationIsExact` | api/store.py:265-298 | without a filter the walk is exact under any updates and creates |
| `Paging.UnfilteredRunIsExact` | api/store.py:212-397 | the same in terms of the store's own calls between the requests |
| `Paging.LostCursorRepeatsRows` | api/store.py:279-298 | limit 2, a status filter, and the cursor's record moved to another status: the first row comes twice |
| `Children.ChildUpdateTouchesOneHistory` | api/store.py:374-397 | a child update appends at most one row, marked with the child, to its new parent's history and changes no case |
| `Children.ReclassificationRecordedIff` | api/store.py:345-396 | an attributed reclassification under a live parent adds exactly one row iff the record ends with a supergroup and the type is valid; otherwise it raises after the record changed |
| `Children.UpdateRaisesDirtyIff` | api/store.py:345-396 | an update raises and still changes the record iff it is an attributed reclassification under a parent that is gone, or with no supergroup or an unknown classifier type; no raising update changes the case store |
| `Children.UpdateIsNotClean` | api/store.py:374-396 | reclassifying a record whose parent is gone raises and changes it |
| `Children.ChildUpdateKeepsExplained` | api/store.py:1291-1337 | child updates never disturb the case-level explanation |
| `Fields.CreatedFields` | api/store.py:212-256 | a created record goes last with the caller's fields, one time stamp, and the lifecycle of each of the seven final statuses, or INGESTED |
| `Fields.ChildUpdateRefused` | api/store.py:340-373 | in which order the guards of a record update refuse it, and that a refused one changes nothing |
| `Fields.ChildUpdateFields` | api/store.py:374-377 | an update writes exactly the fields it was given and the time, of its record only |
| `Fields.ChildUpdateRow` | api/store.py:378-397 | a reclassification adds just the row that names parent, child, new classification and who made it, and raises when it cannot |
| `Stores.CaseStore.FindByCorrelation` | api/store.py:1002-1028 | the priority loop gives the answer of the search function, or raises with it; `CaseIndex.SearchByColumns` says in which order of columns |
| `Stores.CaseStore.RegisterCorrelationsLocked` | api/store.py:1125-1144 | every non-empty key, and no other, now names the case |
| `Stores.CaseStore.LookupOrCreate` | api/store.py:1032-1123 | new state and result are those of the lookup function, including both validation failures |
| `Stores.CaseStore.RegisterCorrelation` | api/store.py:1146-1158 | registers one key of any type for a known case, without looking at the tenant |
| `Stores.CaseStore.Update` | api/store.py:1165-1257 | state and result are those of the update function, guard order included |
| `Stores.CaseStore.RecordClassification` | api/store.py:1339-1377 | appends one row for a known case, nothing otherwise |
| `Stores.CaseStore.RecordForChild` | api/store.py:1291-1337 | appends one child row for a known case, nothing otherwise |
| `Stores.CaseStore.SetPendingOverride` | api/store.py:1396-1421 | stages one override and moves the status, or refuses a second one unchanged |
| `Stores.CaseStore.ClearPendingOverride` | api/store.py:1423-1439 | lifts the override and touches nothing else but the time stamp |
| `Stores.CaseStore.Delete` | api/store.py:1441-1450 | removes the case and every key that names it, and keeps the history |
| `Stores.CaseStore.Clear` | api/store.py:1452-1456 | empties cases and index and keeps the history |
| `Cases.StepKeepsIdentityIff` | api/store.py:1146-1439 | apart from opening, deleting and clearing no call changes which cases exist, and tenant and PO change exactly when an accepted update says so |
| `Cases.StepKeepsWellFormed` | api/store.py:988-1456 | case table and its order agree after every operation |
| `Cases.RaisesDirtyIff` | api/store.py:1015-1257 | a call raises and still changes the store iff its history row's classifier type is unknown after everything else was accepted, or a found case's keys change up to one that cannot be hashed; told from the call and the store beforehand |
| `Cases.UpdateIsNotAtomic` | api/store.py:1194-1257 | such an update: it raises, the case is reclassified, its history stays empty |
| `Cases.LookupIsNotAtomic` | api/store.py:1088-1123 | such a lookup: it raises, the case is open and its key names it |
| `Cases.ListKeyStopsRegistering` | api/store.py:1072-1144 | a known sales order, a PO and a list as EDI id: the call raises and the PO now names the sales order's case |
| `Cases.UpdateStoresInvalidIff` | api/store.py:1179-1241 | an accepted update leaves a valid case exactly when its own origin, tier and status are valid, and stores it either way |
| `Cases.UpdateStoresAnything` | api/store.py:1240-1241 | an update to an unlisted status and tier 9 is accepted and stored |
| `Fields.OpenedCase` | api/store.py:1087-1103 | an opened case carries the event's origin, channel, supergroup and PO and is open, unclosed and at tier 2 |
| `Fields.OpenedRow` | api/store.py:1112-1123 | its one history row names supergroup, intent code and classifier, and the call raises if the classifier type is not HUMAN, MODEL or RULE |
| `Fields.RefusedOpening` | api/store.py:1088-1100 | an origin other than CUSTOMER or API, or a key that is no string, opens nothing |
| `Fields.UpdateRefused` | api/store.py:1211-1234 | in which order the guards of `update` refuse it, and that a refused one changes nothing |
| `Fields.UpdateFields` | api/store.py:1235-1241 | an accepted update writes exactly the fields it was given and the time, of its case only |
| `Fields.UpdateRow` | api/store.py:1242-1256 | it adds just the row that names the new supergroup and who set it iff the supergroup changed, and raises on an unknown classifier type |
| `Fields.OverrideFields` | api/store.py:1396-1439 | staging sets the override, the status and the time; lifting clears the override alone; a second staging is refused |
| `Fields.RegisteredKey` | api/store.py:1146-1158 | afterwards that key resolves to the case and every other as before |
| `Fields.DeletedFields` | api/store.py:1441-1450 | the case, its place in the order and every key that names it are gone; all else stays |
| `CaseIndex.CommitKeepsIndexIff` | api/store.py:1072-1123 | the write section keeps the index live exactly when the case its search saw is still there |
| `CaseIndex.StepKeepsIndexIff` | api/store.py:1032-1456 | each operation keeps every entry naming a live case of its tenant, exactly unless it registers a key across tenants or gives an indexed case another tenant |
| `CaseIndex.CrossTenantKeySpoils` | api/store.py:1146-1158 | a cross-tenant registration is accepted and leaves an entry naming a case of another tenant |
| `CaseIndex.ReachableIndexLive` | api/store.py:990-1456 | in every reachable state each entry names a live case of its tenant |
| `CaseIndex.ResolveIsFind` | api/store.py:1015-1028 | one key's own answer is what the search gives when only that key is supplied |
| `CaseIndex.SearchByColumns` | api/store.py:1015-1028 | sales order, PO, EDI transaction, email: the first column that is known decides, whatever later ones name, and a list or object met before raises |
| `CaseIndex.RegisteredByColumns` | api/store.py:1136-1144 | exactly the columns before a list or object now name the case; every other key keeps what it named |
| `CaseIndex.LookupRegistersKeys` | api/store.py:1065-1144 | afterwards each supplied key resolves on its own to the returned live case, all others as before; `opened_now` iff nothing was found |
| `CaseIndex.EachColumnLeadsToCase` | api/store.py:1072-1123 | after a lookup each of the four identifiers that is present leads to the returned case |
| `CaseIndex.NoKeysIff` | api/store.py:1023-1024 | a lookup has no key iff each identifier is absent, empty or zero |
| `CaseIndex.LookupIdempotent` | api/store.py:1065-1144 | repeating a call with a key returns the same case, not opened, and the same store |
| `CaseIndex.KeylessAlwaysOpens` | api/store.py:1088-1123 | without any key each call opens another case |
| `CaseIndex.StepKeepsOneCasePerPoIff` | api/store.py:1032-1450 | atomic steps keep one case per PO exactly unless an update makes two collide, and keep POs registered exactly unless a deletion or update strands one |
| `CaseIndex.ReachableOneCasePerPo` | api/store.py:1032-1450 | every run of atomic calls, deletions included, that strands no PO and makes none collide holds one case per (tenant, PO) |
| `CaseHistory.StepGrowsHistory` | api/store.py:992-997 | no operation, delete and clear included, removes or rewrites a history row |
| `CaseHistory.RunGrowsHistory` | api/store.py:992-997 | over a whole run each history only grows by appending |
| `CaseHistory.UpdateRecordsIffReclassified` | api/store.py:1194-1257 | an accepted update appends exactly one attributed case-level row iff it changes the supergroup, and touches no other case or history |
| `CaseHistory.LookupRecordsOnOpening` | api/store.py:1057-1123 | opening with a supergroup starts the history with exactly that row; every other lookup records nothing |
| `CaseHistory.StepKeepsExplainedIff` | api/store.py:1115-1257 | a live case's supergroup stays that of its last case-level row exactly when the call respects three stated conditions |
| `CaseHistory.ReachableExplained` | api/store.py:1115-1337 | on such runs each live case's supergroup is that of its last case-level row, unset iff there is none |
| `CaseHistory.StepKeepsTriageNotClosed` | api/store.py:1230-1234 | every operation keeps the close guard |
| `CaseHistory.ReachableTriageNotClosed` | api/store.py:1187-1234 | no reachable case is RESOLVED while it needs triage |
| `Interleaving.NextKeepsIntact` | api/store.py:1065-1123 | without removals one interleaved section keeps the index live and every pending search true |
| `Interleaving.PlayKeepsIntact` | api/store.py:1065-1123 | so index integrity survives every interleaving of the two sections |
| `Interleaving.NextKeepsStanding` | api/store.py:1065-1123 | a search stands as long as no event registers one of its keys or removes the case it found |
| `Interleaving.UndisturbedIsAtomic` | api/store.py:1065-1123 | a write after an undisturbed gap, however long, is the atomic call made at its own moment |
| `Interleaving.UndisturbedRunIsSerial` | api/store.py:1065-1123 | a whole run in which no search is disturbed, removals included, leaves the store of the atomic calls made one after the other |
| `Interleaving.WriteKeepsOneCasePerPoIff` | api/store.py:1072-1123 | a write keeps one case per PO exactly unless it opens a case for a PO some case already carries |
| `Interleaving.RaceOpensTwoCases` | api/store.py:1065-1123 | two threads that both search first open two cases for one PO, and its key names only the second |
| `Interleaving.DeleteInGapDangles` | api/store.py:1065-1086 | a delete between search and write leaves a key naming no case |
| `RollUp.AggregateIsLeastSettled` | api/case_resolver.py:282-342 | the aggregate is a status iff some child projects to it and no child to one that ranks above |
| `RollUp.AggregateByLifecycles` | api/case_resolver.py:244-342 | by the children's own states: awaiting a human iff one is neither settled, blocked nor failed; else BLOCKED iff one is blocked; else FAILED iff one has failed; else RESOLVED; none without children |
| `RollUp.AggregateIgnoresOrder` | api/case_resolver.py:331-342 | the order of the children does not matter |
| `RollUp.ResolvedIff` | api/case_resolver.py:262-300 | RESOLVED exactly when there are children and each is resolved, closed or rejected |
| `RollUp.FoldingIsPersisting` | api/case_resolver.py:319-339 | folding in the incoming record equals aggregating after `create` stored it |
| `RollUp.AttachNeverLowers` | api/case_resolver.py:331-342 | attaching a record never makes the case look more settled |
| `RollUp.RecomputeBlockedIff` | api/case_resolver.py:373-396 | the triage guard stops a roll-up exactly when it would resolve an untriaged case; otherwise the aggregate is stored |
| `RollUp.RollUpFields` | api/case_resolver.py:373-396 | a roll-up writes status, time and `closed_at`, which a terminal status stamps only if unset and any other clears, and nothing else |
| `RollUp.RollUpCommutes` | api/case_resolver.py:345-396 | the status stored before the record is persisted is the one a later recompute finds: it reports no change |
| `RollUp.MoveKeepsClosedIfTerminal` | api/case_resolver.py:360-390 | a terminal status always carries `closed_at` |
| `RollUp.MoveKeepsClosedIffTerminal` | api/case_resolver.py:360-390 | both directions hold step by step, exactly until an override is staged on a closed case |
| `RollUp.ReachableClosed` | api/case_resolver.py:345-396 | the one-way law on every run, the equivalence on runs that stage no override on a closed case |
| `RollUp.OverrideHoldsCase` | api/store.py:1396-1439 | one override at a time: while staged no roll-up moves the case and a second is refused; lifting restores the row but for status and time stamp |
| `RollUp.StaleCloseTimeSurvives` | api/store.py:1413-1439 | an override staged and lifted on a closed case leaves an open case with its close time, which a roll-up that agrees keeps |
| `RollUp.StaleCloseTimeIsReached` | api/case_resolver.py:373-396 | a run of the stores' own calls that ends in such a case |
| `Stores.RecomputeCaseStatus` | api/case_resolver.py:345-396 | on the live stores, state and result are those of the roll-up function |
| `Stores.WorstOf` | api/case_resolver.py:331-342 | the maximum by rank, None without candidates |
| `EventIntake.MaterialiseThenCreate` | api/case_resolver.py:399-451 | after materialise and create every key of the event resolves to the case, and its status is its children's aggregate unless an override is staged |
| `EventIntake.OneSignalPerEvent` | api/case_resolver.py:424-450 | exactly one signal per event: open iff a case was opened, close iff an attach ended it, summary iff an attach left the status alone, update otherwise |
| `EventIntake.BlockedMaterialiseKeepsLookup` | api/case_resolver.py:419-438 | when the triage guard raises, the lookup's effects have already been kept |
| `EventIntake.OriginOfEvent` | api/case_resolver.py:66-87 | explicit origin and channel if both are strings; a customer's email for the three manual types in any case; the EDI feed otherwise |
| `EventIntake.EachKeyHasItsColumn` | api/case_resolver.py:196-203 | which metadata becomes which identifier, the order id standing in for a missing PO |
| `Passes.MaterialiseForEvent` | api/case_resolver.py:399-451 | on the live stores, state, case and signals are those of the materialise function |
| `Backfill.BackfillConserves` | agents/backfill.py:103-145 | scanned records are each opened, attached or skipped; every linked record is under a live case of its tenant; table, index and other records stay sound, aborted or not |
| `Backfill.CountersAreEffects` | agents/backfill.py:103-145 | at the end of a pass, aborted or not, `linkedNew` is the number of cases the store gained and `linkedNew + attached` that of the linked records; a finished pass skipped just the orphans without a usable event |
| `Backfill.LinkOneCounts` | agents/backfill.py:103-143 | one orphan: the fresh id becomes a case iff `linkedNew` grows, the record goes to a case the store had iff `attached` grows, and an abort counts it as scanned only |
| `Backfill.BackfillLeavesUnusable` | agents/backfill.py:103-139 | the orphans left are exactly the records without a usable event; the linked ones exactly the others |
| `Backfill.BackfillIdempotent` | agents/backfill.py:86-145 | a second run rescans the skipped records, opens and links nothing and changes nothing |
| `Backfill.LinkOneKeys` | agents/backfill.py:103-143 | one orphan aborts the loop exactly when a key cannot be looked up, or no case can be opened and none of its keys is known; otherwise the index gains exactly its keys |
| `Backfill.AbortsIff` | agents/backfill.py:103-145 | a pass aborts iff some orphan has a key that cannot be looked up, or no case can be opened from it (origin or a key's type) and none of its keys is known beforehand or from an earlier orphan |
| `Backfill.UnknownOriginAborts` | agents/backfill.py:111-134 | one orphan with an unknown explicit origin: the pass raises and links nothing |
| `Backfill.NumberKeyAborts` | agents/backfill.py:112-134 | one orphan of an accepted origin whose sales order is a number: the pass raises |
| `Backfill.PoDecides` | api/store.py:1015-1028 | without a sales order a lookup follows the PO key |
| `Backfill.KeepsPoKey` | api/store.py:1072-1144 | and moves no PO key, also when it raises |
| `Backfill.SalesOrderWins` | api/store.py:1136-1144 | a known sales order wins over the PO and takes the PO key with it, also when a later key makes the call raise |
| `Backfill.SamePoSameCase` | agents/backfill.py:81-84 | if no scanned event carries a sales order, records of one PO end on one case |
| `Passes.LinkOrphan` | agents/backfill.py:103-143 | one iteration on the live stores is one step of the pass function, abort included |
| `Passes.BackfillOrphanCases` | agents/backfill.py:73-145 | the loop leaves the stores and report of the pass function |
| `Merge.MoveTarget` | agents/backfill.py:186-200 | a merged case goes to a live, unmerged case of its tenant and PO that was opened no later |
| `Merge.MergeLeavesOnePerPo` | agents/backfill.py:177-200 | each PO of the tenant keeps exactly one case, unchanged, the earliest opened; every other one is merged into it |
| `Merge.MergeKeepsChildren` | agents/backfill.py:193-199 | every child survives, moves exactly when its case was merged, and points at a live case of its tenant |
| `Merge.MergeKeepsIndexLive` | agents/backfill.py:193-200 | no index entry names a deleted case |
| `Merge.MergeDropsKeys` | api/store.py:1441-1450 | a key still resolves exactly when its case was not merged away |
| `Merge.MergedPoKeyReopens` | agents/backfill.py:193-200 | if a PO's key named a merged case, the next event with that PO opens a second case |
| `Merge.RaceMergeReopens` | agents/backfill.py:183-200 | after two racing lookups and a merge, the PO has no key and the next event opens a second case beside the surviving one |
| `Merge.PrimaryIsFirst` | agents/backfill.py:186-188 | among equally early cases the first in table order is the one merged into |
| `Merge.MovedIff` | agents/backfill.py:177-200 | a case is merged away iff another of its tenant and PO was opened earlier, or at the same time and stands before it in the table |
| `Merge.SurvivorsAreUnmoved` | agents/backfill.py:193-200 | every case that is not merged away stays as it is, and so does every history |
| `Merge.MergeReportsMoves` | agents/backfill.py:195-199 | `record_to_case` names exactly the records whose parent changed, with the new parent; all others are untouched |
| `Merge.MergeIdempotent` | agents/backfill.py:153-202 | a second run merges nothing and changes nothing |
| `Merge.DryRunPredicts` | agents/backfill.py:189-192 | a dry run changes nothing, links nothing and reports the number of cases the real run removes |
| `Merge.ApplyOneMore` | agents/backfill.py:189-200 | merging duplicates one at a time equals moving them all at once |
| `Passes.GroupByPo` | agents/backfill.py:177-181 | the dict holds each non-empty PO once, with its cases in table order |
| `Passes.RepointChildren` | agents/backfill.py:195-199 | exactly the children of the duplicate move, one update each and each reported, and no case changes |
| `Passes.MergeOrphanCases` | agents/backfill.py:153-202 | the nested loops leave the tables, count and `record_to_case` of the closed-form merge |
| `AgentLoop.ExecuteCalls` | agents/case_agent.py:242-266 | one turn's calls run in order up to the first ok halting call, and each tool's cost is charged |
| `AgentLoop.RunTurn` | agents/case_agent.py:220-276 | an answered turn appends its steps, charges exactly its spend and one iteration, and ends the run as specified |
| `AgentLoop.RunCaseAgent` | agents/case_agent.py:160-279 | the loop terminates for every frame builder, provider and tool behaviour with the run of that world, counters included; an exception while the frame is built is a run of its own kind |
| `AgentLoop.TurnIsCutPrefix` | agents/case_agent.py:242-266 | a turn runs a prefix of its calls; only its last step can halt, and a shorter prefix means that it did |
| `AgentLoop.TraceIsReplies` | agents/case_agent.py:239-279 | the trace is the in-order concatenation of the replies' calls, the last reply cut right after its first ok halting call |
| `AgentLoop.OutcomeIffHalted` | agents/case_agent.py:141-276 | the outcome is one of the four terminal ones iff the last trace entry is an ok halting call, and no other entry is |
| `AgentLoop.OutcomeNamesTool` | agents/case_agent.py:141-277 | a halted run is ESCALATED iff its last tool is `escalate`, AWAITING_BUYER iff `request_clarification_email`, AWAITING_ERP iff `declare_done` with one of the two ERP statuses in any case, RESOLVED iff any other `declare_done`; only `escalate` gives a reason |
| `AgentLoop.UnhaltedEnding` | agents/case_agent.py:187-237 | any other run ends, in this order, on an empty answer, the first of the five limits reached, a frame that cannot be built, or a provider that raises |
| `AgentLoop.AnsweredWithinLimits` | agents/case_agent.py:187-226 | an answered call was made with every counter and the clock below its limit |
| `AgentLoop.TraceObserves` | agents/case_tools.py:134-163 | each trace entry is its call with what the boundary observed: `not_found`, the exception as `error`, or the handler's own result with a missing latency measured |
| `AgentLoop.BillAddsUp` | agents/case_agent.py:219-256 | the cost charged is that of the replies and of every tool in the trace, once each |
| `AgentLoop.TokensOfTurn` | agents/case_agent.py:219-226 | an answered turn adds its reply's tokens and one iteration |
| `AgentLoop.OnlyThreeTiers` | agents/budget.py:56-85 | the limits of the three tiers, and that no other tier has any |
| `AgentLoop.CallsAreBounded` | agents/case_agent.py:187-226 | provider calls never exceed the limit minus the iterations used, and the report counts the answered ones |
| `AgentLoop.OverrunIsOneTurn` | agents/budget.py:93-121 | every limited counter ends below its limit plus the last turn's spend |
| `AgentLoop.BudgetOutcomeIff` | agents/case_agent.py:189-198 | BUDGET_EXHAUSTED iff the run neither halted nor ended on an empty answer and a limit was reached |
| `AgentLoop.CaseBudget.Deduct` | agents/budget.py:93-104 | adds each amount to its counter |
| `Harness.CaseLockManager.TryAcquireLock` | agents/harness.py:101-114 | acquires a free or own lock, refuses another thread's, and leaves every other lock |
| `Harness.ToolCallReplayLog.PersistToolTrace` | agents/harness.py:499-526 | appends one entry per trace entry, in trace order, each with that call and result, its position and the run's outcome |
| `Harness.MutualExclusion` | agents/harness.py:70-114 | over any interleaving at most one step per (tenant, case) is in progress |
| `Harness.EnteredIffFree` | agents/harness.py:409-420 | an idle thread gets in exactly when no step holds the case; a refused one changes nothing |
| `Harness.LeaveFreesLock` | agents/harness.py:495-496 | leaving frees the lock, however the step ended |
| `Harness.PlayKeepsLogWhole` | agents/harness.py:422-526 | over any interleaving the log of each (tenant, case) is whole, uninterleaved step traces plus what its one current writer has written |
| `Harness.PlayKeepsRendered` | agents/harness.py:448-526 | each of those traces holds, entry by entry, the calls, results and positions of the whole trace of one loop result of the run |
| `Harness.RenderingIsFaithful` | agents/harness.py:511-525 | event ids are distinct within a step, and the logged entries determine the trace |
| `Harness.CaseLogIsKeyLog` | agents/harness.py:160-162 | when a case id has one tenant, reading the log by case id gives that log |
| `Harness.TierFallsIff` | agents/harness.py:312-341 | a stored tier falls exactly when the snapshot lags two or more behind it and graduates |
| `Harness.TierOneSnapshotFalls` | agents/harness.py:333-341 | a run in which a tier-1 snapshot brings a tier-3 case down to 2 |
| `Harness.TierMovesForward` | agents/harness.py:425-432 | with snapshots of tier 2 or more, stale ones included, no move lowers a stored tier or raises it by more than one |
| `Harness.TiersNeverFall` | agents/harness.py:312-341 | over every run with such snapshots stored tiers never fall |
| `Harness.ReadRowsAreAtLeastTwo` | agents/harness.py:373-432 | snapshots read from the table at any earlier moment of the run are such snapshots |
| `HarnessStep.AgentHarness.RunAgentStep` | agents/harness.py:373-496 | locks end as they were on every path; a step that is refused or raises before or in the loop logs nothing; one past the loop has logged its whole trace, also when compaction or the shadow raises |
| `HarnessStep.AgentHarness.EnterLoop` | agents/harness.py:422-446 | an unknown case to graduate, or a tier without a budget, stops the step before the loop; otherwise the run of the world is made under the graduated snapshot, and the summary is what the note tool left |
| `HarnessStep.AgentHarness.Conclude` | agents/harness.py:448-494 | the trace is logged, then the case's whole log compacted into its summary if a trigger fires, then the shadow asked; each may end the step |
| `HarnessStep.WrittenIsTrace` | agents/harness.py:448-452 | a step past the loop logs its trace, entry by entry, and any other step logs nothing |
| `HarnessStep.StartByCase` | agents/harness.py:409-446 | another thread's lock refuses the step; tier 1 or 2 without a clean event graduates by one; an unknown case or a tier without a budget stops it |
| `HarnessStep.EndByCase` | agents/harness.py:434-494 | compaction of an unknown case raises before the shadow does; otherwise the step returns the case as stored |
| `HarnessStep.LogIsSummary` | agents/harness.py:454-466 | from 25 entries or a week on, the summary is the text of the kept lines of the case's whole log, whatever was noted |
| `HarnessStep.NoteIsSummary` | agents/harness.py:434-466 | before that, it is the agent's note, or what was there |
| `HarnessStep.ReleaseUndoesAcquire` | agents/harness.py:409-496 | acquire then release restores every lock, also for a re-entrant owner |
| `HarnessStep.StepIsItsMoves` | agents/harness.py:373-526 | in any reachable state, the moves of one undisturbed step have the effect on locks, tiers and log that RunAgentStep promises |
| `Compaction.CompactEvents` | agents/compaction.py:244-268 | the text is the kept lines, with the sentinel iff a line was dropped |
| `Compaction.KeptIsLongest` | agents/compaction.py:255-267 | the kept lines are the longest prefix that fits |
| `Compaction.TextIsBounded` | agents/compaction.py:249-268 | the text never exceeds the cap plus the sentinel, nor the cap when nothing was dropped |
| `Compaction.TruncationIsStable` | agents/compaction.py:259-267 | once truncated, later events never change the kept lines, only the sentinel's total |
| `Compaction.TextIsLines` | agents/compaction.py:258-268 | lines stand one below the other, and a dropped line leaves a last line with the kept and the total number |
| `Compaction.TriggerThresholds` | agents/compaction.py:61-108 | the token trigger fires at 8,000 or, without an estimate, from 40 events on; then 25 events; then seven days |
| `Text.DecimalRoundTrip` | agents/compaction.py:261-262 | a rendered number reads back as itself, without a leading zero |
| `Compaction.JoinedInjective` | agents/compaction.py:268-268 | joining is injective on non-empty single lines |
| `Compaction.RunCompaction` | agents/compaction.py:290-321 | None iff no trigger fires; otherwise the first trigger names the reason and the summary is the compacted text |
| `Compaction.ReplayCompaction` | agents/compaction.py:385-395 | true iff the expected summary is the compacted text of these events |
| `Compaction.ReplayOwnEvents` | agents/compaction.py:385-395 | replaying a run on its own events returns True |
| `Compaction.ReplayDetectsChange` | agents/compaction.py:390-395 | replay on other events agrees only if they leave the same lines |
| `PubSub.InMemoryPubSub.PublishEvent` | api/pubsub.py:54-65 | appends to and trims one tenant's channel only |
| `PubSub.InMemoryPubSub.GetReplay` | api/pubsub.py:67-77 | returns the channel's items from `since`, with zero read as absent |
| `PubSub.TrimmedIsFullSinceCutoff` | api/pubsub.py:60-65 | repeated trimming equals one trim of the full log at the last cutoff |
| `PubSub.ReplayIsComplete` | api/pubsub.py:67-77 | a request from within the last 60 seconds returns exactly what was ever published from then on, in order; an absent or zero `since` exactly the last 60 seconds |
| `PubSub.ReplayReturnsIff` | api/pubsub.py:54-77 | an event comes back iff it was published to the tenant, no publish of the tenant found it older than 60 seconds, and it is no older than the effective `since` |
| `PubSub.FullAppends` | api/pubsub.py:54-59 | the full log of a tenant is its publications in order |
| `PubSub.ZeroSinceLosesIff` | api/pubsub.py:71-77 | of the held events a request from 0.0 loses exactly those older than 60 seconds |
| `PubSub.ZeroSinceIsNotEarliest` | api/pubsub.py:71-77 | an event held at 200 is returned from 0.5 on and not from 0.0 on |
| `Precedents.ComputeCosine` | api/precedents_composer.py:92-98 | the three sums and the quotient give the similarity, 0 for a zero norm |
| `Precedents.CosineSymmetric` | api/precedents_composer.py:92-98 | the similarity is symmetric, also for unequal lengths |
| `Precedents.CauchySchwarz` | api/precedents_composer.py:93-95 | the squared dot product is at most the product of the squared norms |
| `Precedents.CosineBounded` | api/precedents_composer.py:92-98 | the similarity lies in [-1, 1] for all vectors of all lengths |
| `Precedents.CosineOfSelf` | api/precedents_composer.py:96-98 | 1 for a non-zero vector with itself, 0 for a zero vector with anything |
| `Precedents.CosineTimesNorms` | api/precedents_composer.py:92-98 | between non-zero vectors the similarity times both norms is the dot product |
| `Precedents.OneComponentMore` | api/precedents_composer.py:93-95 | one more component adds its product to the dot product and its square to the sum of squares |
| `Precedents.CosineIgnoresLength` | api/precedents_composer.py:92-98 | stretching a vector does not change the similarity |
| `Correlate.MatchIsOneRanking` | api/precedents_composer.py:239-259 | the two sorted tiers are the head of one ranking by account, recency and id |
| `Correlate.MatchIgnoresPoolOrder` | api/precedents_composer.py:239-259 | the order of the candidates does not matter |
| `Correlate.NothingBetterLeftOut` | api/precedents_composer.py:239-259 | every returned row has the record's intent, and no same-intent candidate left out comes before it by account, recency and id |
| `Correlate.MatchOrder` | api/precedents_composer.py:229-259 | the rows come same account first, then newest first with unreadable times last, then by id, and are as many as the limit allows |
| `Ordering.FirstDifferenceDecides` | api/precedents_composer.py:255-255 | ids compare by their first difference, a proper prefix first |
| `ControlTower.ComputeSum` | api/control_tower_composer.py:58-78 | the sum of the present amounts, None when there are none or currencies mix |
| `ControlTower.SumIgnoresOrderOfAmounts` | api/control_tower_composer.py:58-78 | the one-currency sum does not depend on order |
| `ControlTower.SumOneMore` | api/control_tower_composer.py:58-78 | a missing amount does not count, the first starts the sum, one in the same currency adds its cents, one in another leaves None |
| `ControlTower.MixByIntent` | api/control_tower_composer.py:181-203 | one row per intent that can be summed, carrying that sum, largest first, then by intent |
| `ControlTower.LargestFirst` | api/control_tower_composer.py:200-202 | most cents first, equal rows by intent |
| `ControlTower.CaseCountsOnce` | api/control_tower_composer.py:187-193 | a case counts toward its own intent only, and only with an intent and an impact |
| `ControlTower.MixConserves` | api/control_tower_composer.py:181-203 | in one currency the rows sum to all contributing impacts and no contributing intent is missing |
| `ControlTower.MixSumsToDollarAtRisk` | api/control_tower_composer.py:145-203 | if every impact carries an intent and currencies agree, the rows sum to `dollar_at_risk` |
| `ControlTower.Throughput` | api/control_tower_composer.py:151-178 | the eight buckets, in hour order, with each terminal record in the bucket of its truncated hour |
| `ControlTower.NowIsInLastBucket` | api/control_tower_composer.py:157-163 | eight whole hours one after the other, the current one last |
| `ControlTower.EachRecordCountsOnce` | api/control_tower_composer.py:164-178 | a terminal record adds one to the humans' or the agents' count of the bucket of its hour, and to no other |
| `ControlTower.HourOfOffset` | api/control_tower_composer.py:167-173 | a whole-hour offset does not move the bucket; any other misses every bucket |
| `ControlTower.ThroughputConserves` | api/control_tower_composer.py:151-178 | the buckets sum to the number of terminal records finishing inside the window at a whole-hour offset |

## Left out

- AuditChain.DigestBindsBody: asks for collision freedom only on the bodies of the logs compared, and for 64-character hex digests; SHA-256 and `json.dumps` themselves are parameters.
- Stores.ExceptionStore.Update: the fields are those of the modelled record except its id and tenant; a caller that sets `id` as a field is not modelled (`tenant_id` cannot be passed as one).
- Stores.CaseStore.Update: the fields are all of the modelled case (`case_id` cannot be passed as one); the key columns beside the PO, customer, SLA, bundle and compaction-time fields of a case are not modelled.
- Paging.RunsAreHistories: is about updates that do not set `created_at`, which no caller does.
- Cases.StepKeepsWellFormed: new case ids are assumed unused, as `uuid4` intends; the same holds for record ids.
- Harness.PlayKeepsLogWhole: assumes that a thread does not re-enter its own step.
- HarnessStep.AgentHarness.RunAgentStep: the summary the note tool leaves, the case's age, how an entry renders as a line, and whether the shadow raises are inputs; what the shadow answers is not modelled, nor tools that change the tier or the log themselves.
- AgentLoop.RunCaseAgent: the `actions` list only feeds the prompt; whether the frame can be built and what the provider answers are arbitrary functions of the turn.
- Cases.UpdateStoresInvalidIff: text and time fields of a case hold strings and instants; a value of another type in one of them is not modelled.
- Cases.ListKeyStopsRegistering: numbers and booleans as keys are integers, 0 standing for the falsy ones; fractions are not modelled.
- Backfill.BackfillConserves: one clock reading serves a whole pass, and the SLA deadline stamped on opened cases is not modelled.
- Passes.MergeOrphanCases: one clock reading serves the pass.
- EventIntake.MaterialiseThenCreate: the supergroup, its intent code and who classified are inputs; the taxonomy lookup and the email classifier that produce them are not modelled.
- Compaction.CompactEvents: event lines are given; how a line is rendered from an event and its template file is not modelled.
- Compaction.ReplayDetectsChange: is about events whose rendered lines are non-empty and hold no newline.
- Precedents.CosineBounded: is about exact real arithmetic, not floating point.
- AgentLoop.OverrunIsOneTurn: costs are exact reals.
- Records are values in insertion-ordered sequences: that a caller holds, and could mutate, the very object a store returns is not captured.
- Timestamps are integers (reals in the replay buffer) rather than ISO strings; comparison is by instant.
- Database-backed stores, locks and logs, Redis, the web application, authentication, attachments and LLM providers: plumbing around the modelled logic.
- `get`, traces, reanalysis entries and `stats` of the record store: each concerns one field.
- `_semantic_match`: provider calls, memoised embeddings and rounding; the similarity it ranks by is modelled, and the deterministic fallback is.
- `_kpis` percentages, `_agent_activity` and `_sla_risk`: counters, and a filter and sort like the ones proved for the other roll-ups.
- `should_route_to_case_agent`, tool handlers and `to_descriptors`: single tests and thin wrappers.
