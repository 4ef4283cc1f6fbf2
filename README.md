# Finance mapping portal: Pine Labs details, mapping form, filters and export

This project is a Dafny model of the browser-side core of a finance-mapping portal built on a hosted Supabase database.

Users file **mappings** (`finance_mappings`: a store, a brand, a financier and its financier code). Each mapping may carry **Pine Labs details** (`pinelabs_details`: POS id, TID, serial number, store id). The index.js form offers at most three entry rows. The page keeps an in-memory mirror of the loaded details, `allPineLabsData`. It edits a mapping's details through one reconciliation routine, `updatePineLabsDetails`. That routine exists twice, in `pinelabs.js` and `index.js`, with small differences.

The model covers:

- **Classification** (`DetailPlan`). The stored snapshot of a mapping's details and the edit buffer read from the form decide which rows are inserted, which are updated, and which stored ids are deleted.
- **Reconciliation and deletion** (`DetailSync`). The store and the mirror are kept in classes:
  - `Backend` holds the two tables and the server's id counter.
  - `PineLabsView` holds the mirror.
  - Its methods are proved to have exactly the effect given by the functions `Reconcile`, `DeleteSingle` and `DeleteMappingEffect`.
  - Each store call either succeeds or fails without effect. Which call fails is a `Fault` argument.
- **What the routines promise** (`SyncProperties`): ownership checks, the mirror rollback on failure, the non-transactional steps, and exactly which rows the store and the mirror hold after a successful run.
- **The mapping form** (`MappingForm`):
  - reading entry rows into the edit buffer;
  - the checks `handleFormSubmit` makes before its first write;
  - the submit guard (`isSubmitting` plus a one-second debounce);
  - the entry list with its three-row cap and remove-button rule;
  - the rendering of stored rows when a mapping is edited.
- **Table filters** (`TableFilters`): the search and brand filters of the detail tables and the mapping tables in the three scripts, and the `populatePinelabsTable` / `filterPineLabsTable` routines.
- **The admin Excel export rows** (`OverallExport`).
- **The edit round trip** (`EditRoundTrip`): editing a mapping and saving it untouched, as written and corrected.

`toLowerCase`, `trim` and `toLocaleDateString` are locale-dependent. They are function-valued parameters (`TextOps`). The user's role, the clock and the outcome of each store call are also parameters.

## Model

| member | source | states |
|---|---|---|
| JsValues.Filter | index.js:397-414 | The result keeps exactly the elements the predicate accepts, in their original order. |
| JsValues.FilterConcat | pinelabs.js:82-95 | Filtering distributes over concatenation, so filtering preserves order. |
| DetailPlan.HasChanged | pinelabs.js:301-313 | An entry counts as changed iff some stored column differs from its string. A stored null always differs. |
| DetailPlan.MeaningfulEntries | index.js:577-583 | Keeps exactly the entries with a non-empty field, and only entries of the buffer. |
| DetailPlan.PlanConcat | pinelabs.js:289-315 | Classification works entry by entry: the inserts, updates and kept ids of `a + b` are those of `a` followed by those of `b`. |
| DetailPlan.PlanOfOneEntry | pinelabs.js:290-313 | One entry is queued for insert iff it is unmatched and meaningful, and for update iff it is matched and changed. Its id is kept iff it is matched. |
| DetailPlan.InsertsMember | pinelabs.js:289-315 | An entry is queued for insert iff it is in the buffer and is unmatched and meaningful. |
| DetailPlan.UpdatesMember | pinelabs.js:289-315 | An entry is queued for update iff it is in the buffer and is matched and changed. |
| DetailPlan.DeletesExactly | pinelabs.js:317-323 | A stored id is deleted iff no buffer entry carries it. |
| DetailPlan.UpdatesAreNotDeleted | pinelabs.js:317-323 | Every updated id is stored and not deleted. No insert carries a stored id. |
| DetailPlan.NothingQueued | pinelabs.js:289-315 | A buffer with nothing queued gives no inserts and no updates. |
| DetailPlan.UnchangedBufferIsNoOp | pinelabs.js:285-323 | A buffer holding exactly the stored rows, with equal fields, plans no insert, no update and no delete. |
| DetailPlan.NoMatchReplacesEverything | pinelabs.js:285-323 | When no buffer id matches, every stored row is deleted and every meaningful entry is inserted. |
| DetailPlan.AllMeaningfulKept | index.js:583 | The meaningful-entry filter is the identity on a buffer whose entries are all meaningful. |
| DetailSync.InsertAllAt | pinelabs.js:343-368 | Inserted rows land under the fresh ids `first ..` in payload order. Existing rows are unchanged. |
| DetailSync.ApplyUpdatesKeepsRows | pinelabs.js:374-396 | The update calls add no row, remove no row, and move no row to another mapping or user. |
| DetailSync.InsertKeepsInvariant | pinelabs.js:343-368 | Inserting for an existing mapping keeps the store invariant: numeric ids below the counter, and the foreign key holds. |
| DetailSync.UpdatePhaseKeepsInvariant | pinelabs.js:374-396 | The update calls keep the store invariant whether or not one fails. |
| DetailSync.ApplyPlanKeepsInvariant | pinelabs.js:326-396 | The delete, insert and update steps together keep the store invariant. |
| DetailSync.ReconcileKeepsInvariant | pinelabs.js:236-420 | Every run of `updatePineLabsDetails` keeps the store invariant. |
| DetailSync.DeleteSingleKeepsInvariant | pinelabs.js:199-234 | A single-detail delete keeps the store invariant. |
| DetailSync.Backend.LookupOwner | pinelabs.js:253-268 | The owner lookup finds the mapping's `user_id` iff the call succeeds and the mapping exists. |
| DetailSync.Backend.LookupDetailMapping | pinelabs.js:207-208 | The detail lookup finds the detail's `mapping_id` iff the call succeeds and the detail exists. |
| DetailSync.Backend.FetchSnapshot | pinelabs.js:272-282 | The snapshot is exactly the mapping's stored rows, keyed by id. |
| DetailSync.Backend.DeleteDetails | pinelabs.js:328-339 | A successful call removes exactly the given ids. A failed one changes nothing. |
| DetailSync.Backend.InsertDetails | pinelabs.js:343-368 | A call fails on a fault or a missing mapping (the foreign key) and then changes nothing. Otherwise it stores the rows under consecutive fresh ids and returns them. |
| DetailSync.Backend.UpdateDetail | pinelabs.js:374-390 | A successful call rewrites the four fields of the row with the entry's id within the mapping. Nothing else changes. |
| DetailSync.Backend.DeleteDetail | pinelabs.js:216-217 | A successful call removes exactly that row. |
| DetailSync.Backend.DeleteDetailsOfMapping | index.js:999-1004 | A successful call removes every detail row of the mapping. |
| DetailSync.Backend.DeleteMappingRow | index.js:1006-1011 | A successful call removes the mapping row. Details are untouched. |
| DetailSync.PineLabsView.Classify | pinelabs.js:285-323 | The classification loop builds exactly the plan `MakePlan(snapshot, buffer)`. |
| DetailSync.PineLabsView.UpdatePineLabsDetails | pinelabs.js:236-420 | The result and the new store and mirror are exactly `Reconcile` of the old ones. The store invariant is kept. |
| DetailSync.PineLabsView.RunPlan | pinelabs.js:326-340 | The delete, insert and update steps have exactly the effect `ApplyPlan` gives. |
| DetailSync.PineLabsView.RunInserts | pinelabs.js:343-370 | A failed insert restores the saved mirror. Otherwise the created rows are appended with no parent and the updates follow. |
| DetailSync.PineLabsView.RunUpdates | pinelabs.js:374-396 | One update call and one mirror patch per entry. The first failure stops the loop and restores the saved mirror. |
| DetailSync.PineLabsView.DeleteSinglePinelabsDetail | pinelabs.js:199-234 | The result and the new state are exactly `DeleteSingle`. pinelabs.js splices the first mirror row with the id; index.js filters out all of them. |
| DetailSync.PineLabsView.CheckDeleteAllowed | pinelabs.js:202-213 | The checks before a single-detail delete: signed in, and for a non-admin the detail exists and the user owns its mapping. |
| DetailSync.PineLabsView.DeleteMapping | index.js:996-1019 | The mapping's details are deleted, then the mapping. The mirror is filtered only after both succeed. |
| SyncProperties.ApplyUpdatesAt | pinelabs.js:374-394 | After the update calls, a targeted row of the mapping holds its entry's fields. Every other row is as it was. |
| SyncProperties.ApplyUpdatesElsewhere | pinelabs.js:374-394 | A key that no update entry carries keeps its row. |
| SyncProperties.FirstIndexSameIds | pinelabs.js:392 | Mirrors with the same ids at every index give the same `findIndex` for any id. |
| SyncProperties.PatchAllAt | pinelabs.js:392-394 | Only the first row with a targeted id changes, and it takes its entry's fields (in index.js also the mapping id). |
| SyncProperties.NonOwnerChangesNothing | pinelabs.js:253-269 | A non-admin who does not own the mapping changes nothing, whatever the buffer. |
| SyncProperties.EarlyFailureChangesNothing | pinelabs.js:237-282 | A missing id, no user, a failed ownership check, a failed snapshot or a failed delete leaves store and mirror as they were. |
| SyncProperties.FailedRunKeepsMirror | pinelabs.js:359 | A failed run leaves the mirror exactly as it was before the run. No run touches the mappings table. |
| SyncProperties.FailedPlanKeepsMirror | pinelabs.js:389 | A failed plan step leaves the mirror as it was before the run. |
| SyncProperties.InsertFailureKeepsDeletes | pinelabs.js:328-368 | When the insert fails, the deletes already made stay made and nothing is inserted: the steps are not one transaction. |
| SyncProperties.ReconcileSucceeds | pinelabs.js:236-420 | An admin, or the owner of an existing mapping, with no failing store call, succeeds. |
| SyncProperties.ReconcileIsApplyPlan | pinelabs.js:272-323 | Once the checks pass, a run applies the plan classified from the mapping's snapshot. |
| SyncProperties.ApplyPlanSucceeds | pinelabs.js:326-396 | With no failing call, a plan is applied as deletes, then inserts, then updates, on store and mirror alike. |
| SyncProperties.StoreAfterSuccess | pinelabs.js:326-396 | The store after a successful run is the staged store with the updates applied. |
| SyncProperties.MirrorAfterSuccess | pinelabs.js:326-396 | The mirror after a successful run is the staged mirror with the patches applied. |
| SyncProperties.StoredRowsAfterSuccess | pinelabs.js:285-396 | After a successful run, a stored row of the mapping survives iff a buffer entry carries its id, and then holds that entry's four fields. |
| SyncProperties.InsertedRowsAfterSuccess | pinelabs.js:343-368 | A successful run inserts one row per new meaningful entry, in buffer order, under ids `nextId ..`. Each carries the mapping id and the acting user's id. |
| SyncProperties.NewRowsAt | pinelabs.js:343-368 | The rows under fresh ids survive the update calls when every update names a row stored before the run. |
| SyncProperties.OtherMappingsUntouched | pinelabs.js:236-420 | A successful run leaves the rows of every other mapping as they were. |
| SyncProperties.DropIdsNone | pinelabs.js:333-339 | Dropping ids that no row carries keeps the mirror. |
| SyncProperties.DropIdsConcat | pinelabs.js:333-339 | Dropping ids distributes over concatenation, so the surviving rows keep their order. |
| SyncProperties.OnlyOneUpdateFor | pinelabs.js:301-313 | With distinct buffer ids, the only update entry carrying an entry's id is that entry. |
| SyncProperties.PatchFirstAt | pinelabs.js:392-394 | One patch changes only the first row carrying its entry's id, which takes the entry's fields (and, in index.js, the mapping id). |
| SyncProperties.PatchAllShape | pinelabs.js:392-394 | The patches keep the mirror's length and every row's id and parent. |
| SyncProperties.FirstIndexPrefix | pinelabs.js:392 | An id occurring in `a` is first found in `a`, whatever follows. |
| SyncProperties.PatchKeptAndAppended | pinelabs.js:362-394 | Patching `kept + appended`, where no update targets an appended row, leaves the appended rows as they are and changes only the first kept row with a targeted id. |
| SyncProperties.AppendedRows | pinelabs.js:362-364 | A successful insert appends one mirror row per insert, under the fresh ids, with no parent. |
| SyncProperties.UpdatesMissAppendedRows | pinelabs.js:285-323 | In a successful run, no update targets a freshly inserted row, and no two updates share an id. |
| SyncProperties.MirrorRowsAfterSuccess | pinelabs.js:326-396 | After a successful run the mirror is the surviving rows in their order, then one row per insert. No deleted id remains. The first row with an updated id takes that entry's fields. Every other row is unchanged. |
| SyncProperties.NonOwnerCannotDeleteDetail | pinelabs.js:206-213 | A non-admin can delete neither a detail of someone else's mapping nor one that does not exist. |
| SyncProperties.DeleteSingleStore | pinelabs.js:216-217 | A failed single delete changes nothing. A successful one removes exactly that stored row. |
| SyncProperties.RemoveFirstDropsOne | pinelabs.js:221-224 | `findIndex` plus `splice` removes one row: the mirror is one row shorter when the id occurs, and rows with other ids keep their order. |
| SyncProperties.DeleteSingleMirror | index.js:1060 | After a successful single delete, rows with other ids keep their order. index.js leaves no row with the id; pinelabs.js leaves one row fewer. |
| SyncProperties.DeleteMappingRemovesAll | index.js:996-1014 | A successful `deleteMapping` leaves no detail or mirror row of the mapping, removes the mapping, and keeps every other detail row. |
| SyncProperties.MappingDeleteFailureKeepsMirror | index.js:1005-1013 | When the mapping delete fails, its details are already gone while the mapping and the mirror stay. |
| MappingForm.ReadAll | index.js:577-582 | One buffer entry per form row, in form order. |
| MappingForm.MeaningfulConcat | index.js:583 | Dropping all-empty entries distributes over concatenation. |
| MappingForm.ExtractBufferConcat | index.js:577-583 | The buffer is read row by row in form order: the buffer of two row lists is the concatenation of their buffers. |
| MappingForm.ExtractBufferSingle | index.js:577-583 | A row contributes its entry iff one of its four inputs is non-empty. |
| MappingForm.ClearedFormYieldsNoEntries | index.js:583 | A form whose inputs are all empty yields an empty buffer. |
| MappingForm.FinanceCode | index.js:540-557 | The code is the code input's value for a financier with a code section, and empty otherwise. |
| MappingForm.SubmissionOutcome | index.js:559-627 | A missing user, a missing required field and a create-mode duplicate are each rejected iff that check is the first to fail. On success the record and mode are carried on with the buffer read from the rows. The page reads `data-id` as text (`DataIdText`, index.js:578), and the statement holds for that reading and for the corrected one. Reconciliation is requested iff the buffer is non-empty. |
| MappingForm.DuplicateOnlyInCreateMode | index.js:102-117 | An edit is never rejected as a duplicate. A failed duplicate lookup never rejects a create. |
| MappingForm.ClearedFormSkipsReconcile | index.js:618-627 | Saving a form whose entry inputs are all cleared does not reconcile, so the stored details stay. |
| MappingForm.AdmittedPressesAreSpaced | index.js:527-538 | Over any sequence of presses and completions, admitted presses are at least 1000 ms apart, `lastSubmitTime` is the last admitted time, and a press is admitted only after the previous one finished. |
| MappingForm.PressWhileSubmittingIgnored | index.js:527 | A press while a submission is in flight is ignored and changes nothing. |
| MappingForm.PressTooSoonRefused | index.js:533-537 | A press within 1000 ms of the last admitted one is refused and leaves `lastSubmitTime` as it was. |
| MappingForm.SubmitGuard.constructor | index.js:56-59 | The guard starts not submitting, with `lastSubmitTime` 0. |
| MappingForm.SubmitGuard.Begin | index.js:527-538 | The guard's new state and the admission are exactly `Admit`. A press is accepted iff nothing is in flight and 1000 ms have passed. |
| MappingForm.SubmitGuard.Finish | index.js:650-653 | The `finally` block releases the guard and keeps `lastSubmitTime`. |
| MappingForm.InputText | pinelabs.js:17-31 | The corrected half of the null-rendering finding: a stored string is shown as itself and a null as an empty input, where the template as written (`TemplateText`) shows `null`. |
| MappingForm.RenderAll | index.js:931-943 | The corrected rendering: one removable row per stored detail, in order, with null columns shown empty. |
| MappingForm.RenderAllAsWritten | index.js:931-943 | One removable row per stored detail, in order, each with its `data-id` and every column through the `${x}` template as written (index.js:141-163). |
| MappingForm.EntryList.constructor | index.js:179-190 | The list starts as the one blank row without a remove button. |
| MappingForm.EntryList.Reset | index.js:179-190 | `createEmptyPinelabsEntry` puts back the single blank row. |
| MappingForm.EntryList.AddEntry | index.js:170-177 | A blank removable row is appended iff the list is uncapped (pinelabs.js:37-41) or holds fewer than three rows. A capped list never exceeds three. |
| MappingForm.EntryList.RemoveEntry | index.js:191-205 | A row is removed iff it has a remove button and more than one row is shown. The rest keep their order, and at least one row remains. |
| MappingForm.EntryList.LoadForEdit | index.js:929-947 | Editing shows one row per stored detail, rendered by the template as written (`RenderAllAsWritten`, so a null column shows `null`), or the blank row when there is none. |
| TableFilters.IndexDetailRowsExact | index.js:392-414 | The displayed details are exactly the loaded ones containing the term and carrying the brand, in order. A non-empty brand shows only that brand. |
| TableFilters.IndexDetailRowsUnfiltered | index.js:399 | With both filters empty every loaded detail is displayed, in order. |
| TableFilters.ScriptDetailRowsExact | pinelabs.js:77-96 | The displayed details are exactly those whose joined eight-column text contains the term, in order. An empty term displays all of them. |
| TableFilters.OverallDetailRowsExact | navigation.js:316-332 | The admin detail filter keeps exactly the rows matching term and brand, in order. With both filters empty it keeps every row. |
| TableFilters.IndexMappingRowsExact | index.js:477-521 | The mapping filters keep exactly the rows matching term and brand, in order. |
| TableFilters.IndexMappingUnfiltered | index.js:484-494 | With both filters empty, a mapping is kept iff one of its six searched columns is non-null. |
| TableFilters.OverallMappingRowsExact | navigation.js:213-240 | A non-admin never keeps a pure Pine Labs mapping. A non-empty brand keeps only that brand. An admin with empty filters keeps every mapping. |
| TableFilters.OverallMappingRowsForNonAdmin | navigation.js:219-220 | With empty filters, a non-admin sees exactly the mappings that are not pure Pine Labs ones. |
| TableFilters.AdminFindsPurePineLabs | navigation.js:221-222 | An admin finds a pure Pine Labs mapping under the text "Pine Labs". |
| TableFilters.PopulatePinelabsTable | index.js:382-414 | Without a table body the mirror is kept and nothing is shown. Otherwise the mirror becomes the given rows, or empty for a non-array, and the displayed rows are filtered from it. |
| TableFilters.FilterPineLabsTable | index.js:469-476 | The mirror is redisplayed through the filters, or nothing is shown without a table body. The mirror is unchanged. |
| TableFilters.PopulatePinelabsTableScript | pinelabs.js:65-96 | Without a table body the mirror is kept and nothing is shown. Otherwise the mirror becomes the given rows, or empty for a non-array, and the displayed rows are those containing the term. |
| TableFilters.FilterPineLabsTableScript | pinelabs.js:127-152 | Shows exactly the mirror rows containing the term, and only mirror rows, or nothing without a table body. The mirror is unchanged. |
| OverallExport.ReplaceSpaces | navigation.js:372 | Same length; each space becomes `_` and every other character is kept. |
| OverallExport.PrepareOverallExcelData | navigation.js:366-397 | The export fails, with the first failing mapping's error, iff some mapping cannot be shaped. Otherwise it has one row per mapping, in order. |
| OverallExport.ExportRowFails | navigation.js:369-375 | A row fails iff it has a financier and a null code. |
| OverallExport.DetailsColumnShape | navigation.js:380 | `PLDetails` is `-` iff there are no details, and otherwise starts with the first detail's segment. |
| OverallExport.OneDetailSegment | navigation.js:380 | One detail exports as a single `POS:…,TID:…,SNo:…,StoreID:…` segment. |
| OverallExport.EmptyFieldsReadNA | navigation.js:380 | For every detail: with no field set the segment is four `N/A`s; with all four set it shows them as they are. |
| OverallExport.TwoDetailSegments | navigation.js:380 | Two details are joined with `; `. |
| OverallExport.ExportRowCodes | navigation.js:368-391 | `BCode` is shown only for an Apple mapping with a brand code. `Fin` is `Pine Labs` for a pure Pine Labs mapping. An `FCode` other than `-` is the object code's entry under the financier's key. |
| OverallExport.FinancierKeyOfLowered | navigation.js:372 | A lower-cased financier name without spaces is its own key. |
| OverallExport.TextCodeDroppedByExport | navigation.js:369-375 | As written, a string code exports as `-` while the table displays it. |
| OverallExport.TextCodeDroppedExample | navigation.js:366-375 | Financier `HDFC` with code `HD42` exports `-` but displays `HD42`. |
| OverallExport.FixedExportMatchesDisplay | navigation.js:144-150 | With the string case added, the exported code equals the displayed code for every mapping. |
| EditRoundTrip.TextIdsNeverMatch | index.js:578 | Reading `data-id` as text never matches a numeric snapshot key. |
| EditRoundTrip.EditSaveReplacesEveryRow | index.js:578 | As written, saving an edited mapping unchanged deletes every stored row and re-inserts every non-empty form row. |
| EditRoundTrip.ExampleRowRendered | index.js:931-943 | Detail 5 renders as a row with `data-id="5"` and its field values. |
| EditRoundTrip.EditSaveReplacesRowExample | index.js:578 | Stored row 5, saved unchanged, is deleted and re-inserted. |
| EditRoundTrip.NullReadsBackAsText | pinelabs.js:17-31 | As written, a null column comes back from the form as the text `null`. |
| EditRoundTrip.NullSavedAsTextExample | pinelabs.js:22 | Even with numeric ids, an untouched row with a null TID is updated to store the text `null`. |
| EditRoundTrip.RenderedRowReadsBack | index.js:931-943 | With the corrected rendering, a row reads back its own id and columns, nulls as empty text. No column reads `null` unless stored so. |
| EditRoundTrip.CorrectedReadBack | index.js:577-582 | The corrected reading of non-null rows gives back each row's id and columns, in order. |
| EditRoundTrip.NoOpFromReadBack | pinelabs.js:285-323 | A buffer carrying every stored row with its own id and columns plans nothing. |
| EditRoundTrip.EditSaveUnchangedIsNoOp | index.js:577-627 | With ids read as numbers and nulls rendered empty, saving an untouched edit plans no insert, update or delete. |

## Left out

- Rendering HTML, toasts, confirm dialogs, the loading overlay and the tab switches. These are display only. The `confirm` answer is taken as yes.
- The re-fetches after a successful operation (`loadMappings`, `refreshTables`, `refreshOverallTables`). They replace the mirror with a fresh server read, and that read is not part of this model.
- The role lookup `checkUserRole` and its caching. The actor's role is an input.
- Row-level security on the server. The store applies every call it receives.
- The `finance_mappings` insert and update of `handleFormSubmit`, and the mapping id they return. `PrepareSubmission` stops at the checks before the first write, and reconciliation takes the mapping id as an argument.
- navigation.js `deleteOverallMainMapping` (navigation.js:350-363). It is the same two deletes as `deleteMapping`, without error checks on the results.
- Concurrency between overlapping asynchronous handlers, and the debounce timer of the search inputs. The guard is modelled as a single sequence of events.
- Unicode lower-casing, trimming and locale date formatting. These are uninterpreted functions, and a lemma that needs it assumes only that they map "" to "".
- HTML attribute escaping of rendered values. A value containing `"` is assumed to read back unchanged.
- The clock. `requested_date` and the press times are parameters.
- The spreadsheet file writing of the export, and the file name.
- Neither index.js nor navigation.js parses as written: many one-line template literals lack their backticks. In index.js these are lines 98, 99, 131, 143, 344 (the nested delete handler), 425, 427, 445, 643, 735, 748 and 775; in navigation.js lines 161, 167, 204, 343, 380, 496 and 539. The model follows the evident template at each place it covers: the `data-id` attribute of index.js:143 as in the pinelabs.js:10 form, the "updated"/"created" message of index.js:643, the error texts of index.js:735-775 (not modelled; the errors are the `SyncError` values), and the `POS:…,TID:…,SNo:…,StoreID:…` segment of navigation.js:380 (`OverallExport.DetailSegment`). The HTML, console and file-name templates are outside the model.
- MappingForm.EntryList.AddEntry: the pinelabs.js add action (pinelabs.js:37-41) accepts initial field values. The model always adds a blank row, which is how the page calls it.
- The server's choice of new ids. The model assumes consecutive ids from a counter, in payload order.
- The `required` attribute on the first POS input is not modelled. It is a browser-side hint.

## Findings

| source | as written | input that shows it | evidently intended | confidence | as-written member | corrected member |
|---|---|---|---|---|---|---|
| index.js:578 | The buffer id is `entry.dataset.id`, a string. The snapshot map is keyed by the numeric ids the server returns, so `existingDbMap.has(id)` is never true. | Edit a mapping with stored detail 5 and save it untouched. Row 5 is deleted and inserted again under a new id. | Read the id as the number it was written from, so an untouched row matches its stored row and nothing is written. | not executed | EditRoundTrip.EditSaveReplacesEveryRow | EditRoundTrip.EditSaveUnchangedIsNoOp |
| navigation.js:369-375 | `FCode` is read only when `financier_code` is an object. The form saves it as a string, which exports as `-`. | Financier `HDFC` with code `HD42`: the table shows `HD42`, the export shows `-`. | Export the string code as the table displays it (navigation.js:144-150). | not executed | OverallExport.TextCodeDroppedByExport | OverallExport.FixedExportMatchesDisplay |
| pinelabs.js:17-31 | `editMapping` passes stored columns into `value="${x}"`, so a null column is rendered as the text `null`. | A stored detail whose TID is null, edited and saved untouched, is updated to the text `null`. | Render a null column as an empty input. | not executed | EditRoundTrip.NullSavedAsTextExample | EditRoundTrip.RenderedRowReadsBack |
