# Import state of the Compass import dialog, in Dafny

This project models the state logic of the Compass "Import" dialog
(`packages/compass-import-export/src/modules/import.ts`). The dialog imports a CSV, JSON or
JSON-lines file into a MongoDB collection. The module has two parts:

- **The reducer.** It holds one flat state record: the dialog flags, the chosen file and its
  detected format, the run status and counters, the CSV preview (`fields`, `values`) and the
  write selection (`transform`, `exclude`). Each action moves it to a new record.
- **The thunks.** They decide which actions to dispatch once their asynchronous steps finish:
  probing the file, listing the CSV header, analysing the columns, running the importer.

The model has six modules:

- `ImportTypes` (`import_types.dfy`) holds the state record, `Initial` (the initial state), the
  three kinds of preview field (typed CSV field, JSON field, placeholder for a later array
  element) and the actions.
- `FieldSelection` (`field_selection.dfy`) holds the lists the reducer derives from the fields:
  - `nonPlaceholderFields` and `csvFields`;
  - SET_PREVIEW's `transform`, and TOGGLE's and SET_FIELD_TYPE's `transform` and `exclude`;
  - `WriteFields`, the field/type map the importer receives;
  - the lemmas that tie these lists together.
- `ImportReducer` (`reducer.dfy`) holds `Reduce`, one branch per action, and `Apply`, which
  dispatches a sequence of actions. It proves what each action does and the invariants every
  action keeps.
- `SchemaInference` (`schema_inference.dfy`) holds two loops from `loadCSVPreviewDocs` and
  `loadTypes`, each a method proved against a specification function:
  - the header uniquification;
  - the in-place merge of detected column types into the preview fields.
- `StartImport` (`start_import.dfy`) holds what `startImport` computes before and while a run
  goes:
  - the field map loop and the import plan;
  - the progress guesstimate;
  - the per-run closure, as a class with its `errors` list;
  - the actions that settle a run.
- `ImportThunks` (`thunks.dfy`) holds the action sequences of `cancelImport`, `openImport`,
  `selectImportFileName`, `setDelimiter`, `loadCSVPreviewDocs` and `loadTypes`. The outcomes of
  their asynchronous steps are parameters, and the lemmas follow those sequences through
  `Apply`.

The headline invariant is `ImportReducer.SelectionSound`. It holds when what an import would
write (every `transform` pair whose name is not in `exclude`, later pairs overwriting earlier
ones) is exactly the map of checked typed fields, and no path is both checked and unchecked.
`ImportReducer.ReduceKeepsSelection` proves that every action except FILE_SELECTED keeps it,
provided a SET_PREVIEW brings no JSON fields and no path that is both checked and unchecked.
`ImportThunks.HeaderPreviewsSound` proves that both states the dispatched actions of a CSV
preview reach establish it: the typed preview and the untyped one. When the analysis misses a
column of the header, the store's own state (`ImportThunks.PreviewOutcome`) does not satisfy it;
`ImportThunks.MissingColumnBreaksSelection` exhibits this (third row of "## Findings").

Where the code does something other than its comments intend, the model follows the code:

- TOGGLE_INCLUDE_FIELD puts every typed field into `transform`, checked or not. Leaving the
  unchecked ones out is up to `exclude`. `FieldSelection.ToggleListsWriteSelection` shows that
  the pair still writes the right fields.
- SET_FIELD_TYPE does not skip placeholders or JSON fields. A field whose path matches becomes
  a checked CSV field of the new type.
- SET_PREVIEW resets `exclude` to empty.
- FILE_SELECTED empties `fields` but keeps `values`, `transform`, `exclude` and
  `analyzeStatus`. It drops the analysis controller without aborting the analysis and without
  ANALYZE_CANCELLED. When a CSV file's header listing then fails, nothing replaces that
  `transform`, so `startImport` would write the previous file's fields into the new import:
  `ImportThunks.SelectCsvListingFailsKeepsSelection` proves this.
- `loadTypes` writes the detected types into the field objects SET_PREVIEW already stored, so a
  failure part-way leaves the store's fields partly typed. `ImportThunks.PreviewOutcome` is the
  store's state with those writes counted; `Apply` alone gives the state the dispatched actions
  describe.

Two places follow the evidently intended behaviour instead, each listed under "## Findings" with
the code as written modelled beside it:

- Preview loads (`ImportThunks.LoadCsvPreview` and the lemmas over it) build their fields with
  `SchemaInference.HeaderFields`. For a header whose unique name is an Object.prototype member,
  the code gives a placeholder instead (`SchemaInference.HeaderFieldsAsWritten`).
- `StartImport.BuildFieldMap` keeps a field named `__proto__`, which the code's plain-object map
  drops (`StartImport.FieldMapAsWritten`). `StartImport.PlanImport`, `StartImport.PlanWritesSelection`
  and `ImportThunks.SelectCsvListingFailsKeepsSelection` state the planned field map as the same
  corrected `FieldSelection.WriteFields`.

## Model

| member | source | states |
|---|---|---|
| FieldSelection.NonPlaceholderFields | packages/compass-import-export/src/modules/import.ts:764-770 | a field is kept exactly when it is in the list and is not a placeholder |
| FieldSelection.CsvFields | packages/compass-import-export/src/modules/import.ts:772-780 | an entry is listed exactly when some field is a typed CSV field with that path and type |
| FieldSelection.Toggled | packages/compass-import-export/src/modules/import.ts:866-874 | same length and paths; a non-placeholder field with the path differs only in its check mark, which is flipped; every other field, placeholders included, is unchanged |
| FieldSelection.Retyped | packages/compass-import-export/src/modules/import.ts:896-911 | same length; every field with the path, whatever its kind, becomes a checked CSV field of the new type that keeps its analysis only if it was a CSV field; the others are unchanged |
| FieldSelection.WriteFieldsKeys | packages/compass-import-export/src/modules/import.ts:251-257 | a name is in the field map exactly when it is not excluded and some `transform` pair carries it |
| FieldSelection.WriteFieldsLastWins | packages/compass-import-export/src/modules/import.ts:251-257 | for a name that is not excluded, the map holds the type of the last pair with that name |
| FieldSelection.WriteFieldsIgnoresForeignExcludes | packages/compass-import-export/src/modules/import.ts:251-257 | exclusions that name no `transform` pair change nothing |
| FieldSelection.WriteAllCsvMinusUnchecked | packages/compass-import-export/src/modules/import.ts:876-884 | when every unchecked typed field is excluded, listing all typed fields writes the same map as listing only the checked ones |
| FieldSelection.CheckedNotExcluded | packages/compass-import-export/src/modules/import.ts:913-919 | with no mixed paths, SET_FIELD_TYPE's `transform`/`exclude` write exactly the checked typed fields |
| FieldSelection.ToggleListsWriteSelection | packages/compass-import-export/src/modules/import.ts:876-884 | with no mixed paths, TOGGLE's `transform`/`exclude` write exactly the checked typed fields |
| FieldSelection.PreviewListWritesSelection | packages/compass-import-export/src/modules/import.ts:850-854 | without JSON fields, SET_PREVIEW's `transform` is the list of checked typed fields and writes exactly them |
| FieldSelection.ToggledKeepsNoMixedPath | packages/compass-import-export/src/modules/import.ts:866-874 | a toggle keeps every path either all checked or all unchecked |
| FieldSelection.RetypedKeepsNoMixedPath | packages/compass-import-export/src/modules/import.ts:895-910 | retyping keeps every path either all checked or all unchecked |
| ImportReducer.SetPreviewEffect | packages/compass-import-export/src/modules/import.ts:841-857 | fields and rows replaced, preview loaded, `exclude` emptied, `transform` = the checked non-placeholder fields in order; nothing else changes |
| ImportReducer.ToggleEffect | packages/compass-import-export/src/modules/import.ts:861-886 | the matching non-placeholder fields flip; `exclude` lists the unchecked non-placeholder paths and `transform` every typed field (checked or not), each in field order, split over any split of the fields; nothing else changes |
| ImportReducer.ToggledTwice | packages/compass-import-export/src/modules/import.ts:866-874 | flipping the same path twice gives back the fields |
| ImportReducer.ToggleTwice | packages/compass-import-export/src/modules/import.ts:861-886 | toggling a path twice restores the fields and leaves `transform`/`exclude` as derived from them |
| ImportReducer.ToggleTwiceAfterToggle | packages/compass-import-export/src/modules/import.ts:861-886 | a state produced by a toggle comes back whole after toggling any path twice |
| ImportReducer.ToggleTwiceKeepsWrite | packages/compass-import-export/src/modules/import.ts:861-886 | on a sound state, toggling a path twice leaves what an import would write unchanged |
| ImportReducer.ToggleTwiceRebuildsTransform | packages/compass-import-export/src/modules/import.ts:861-886 | after SET_FIELD_TYPE, toggling a path twice restores the fields but not `transform`, which then also lists the unchecked typed fields |
| ImportReducer.SetFieldTypeEffect | packages/compass-import-export/src/modules/import.ts:891-922 | matching fields become checked CSV fields of the new type, keeping the analysis of a CSV field; the path leaves `exclude`; `transform` lists the checked typed fields and `exclude` the unchecked paths, in field order; nothing else changes |
| ImportReducer.SetPreviewEstablishesSelection | packages/compass-import-export/src/modules/import.ts:841-857 | a preview with no JSON fields and no mixed paths makes the selection sound, whatever the state before |
| ImportReducer.LeavesSelectionEffect | packages/compass-import-export/src/modules/import.ts:785-1070 | the actions other than FILE_SELECTED, SET_PREVIEW, TOGGLE, SET_FIELD_TYPE and OPEN leave `fields`, `transform` and `exclude` alone |
| ImportReducer.ReduceKeepsSelection | packages/compass-import-export/src/modules/import.ts:785-1070 | every action but FILE_SELECTED keeps the write selection equal to the checked typed fields, provided a SET_PREVIEW brings no JSON fields and no path both checked and unchecked |
| ImportReducer.FileSelectedKeepsStaleTransform | packages/compass-import-export/src/modules/import.ts:786-805 | FILE_SELECTED can break that invariant: the fields are gone but `transform` still writes them |
| ImportReducer.FileSelectedEffect | packages/compass-import-export/src/modules/import.ts:786-805 | the new file, type, delimiter, stats and multi-line flag; run status, counters (guessed ones included), errors, fields and both controllers reset; every other part of the state, `values`, `transform`, `exclude` and `analyzeStatus` among them, kept |
| ImportReducer.StartedEffect | packages/compass-import-export/src/modules/import.ts:940-952 | status STARTED with the run's controller; errors and counters reset; every other part of the state kept |
| ImportReducer.FinishedEffect | packages/compass-import-export/src/modules/import.ts:978-997 | a cancelled run stays CANCELED, otherwise COMPLETED_WITH_ERRORS exactly when errors were recorded and COMPLETED exactly when none were; final counts stored; controller dropped; every other part of the state kept |
| ImportReducer.CanceledEffect | packages/compass-import-export/src/modules/import.ts:999-1005 | status CANCELED, controller dropped; every other part of the state, errors and all counts included, kept |
| ImportReducer.FailedEffect | packages/compass-import-export/src/modules/import.ts:927-938 | status FAILED; the error is recorded once (an already recorded error is not added again), so duplicate-free lists stay duplicate-free; every other part of the state kept |
| ImportReducer.ReduceKeepsRunCancellable | packages/compass-import-export/src/modules/import.ts:785-1070 | every action keeps a STARTED run cancellable (it has a controller) |
| ImportReducer.ReduceKeepsAnalysisCancellable | packages/compass-import-export/src/modules/import.ts:1035-1067 | every action keeps a pending analysis controller tied to a STARTED analysis; FILE_SELECTED during an analysis leaves it STARTED with no controller |
| ImportReducer.OpenEffect | packages/compass-import-export/src/modules/import.ts:1007-1012 | OPEN is the initial state with the dialog open |
| ImportReducer.ForeignIsIgnored | packages/compass-import-export/src/modules/import.ts:1069 | an action of another slice returns the state unchanged |
| SchemaInference.UniqueHeaderFields | packages/compass-import-export/src/modules/import.ts:542-565 | the loop with its `fieldMap` returns exactly `HeaderFields`: one field per header, a placeholder for a repeated unique name |
| SchemaInference.HeaderFieldsShape | packages/compass-import-export/src/modules/import.ts:544-565 | the first header for a unique name gives a checked 'mixed' CSV field at that name; every later one gives a placeholder with the raw header |
| SchemaInference.HeaderPathsDistinct | packages/compass-import-export/src/modules/import.ts:542-565 | the CSV fields of a header list have pairwise distinct paths |
| SchemaInference.HeaderFieldsWellFormed | packages/compass-import-export/src/modules/import.ts:544-565 | header fields hold no JSON field, every non-placeholder one is checked, no path is mixed |
| SchemaInference.PrototypeNameBecomesPlaceholder | packages/compass-import-export/src/modules/import.ts:542-557 | as written, a single column named `toString` becomes a placeholder, although it is a first occurrence |
| SchemaInference.AsWrittenAgreesOffPrototype | packages/compass-import-export/src/modules/import.ts:542-565 | away from Object.prototype member names the code's behaviour and the intended one coincide |
| SchemaInference.Detected | packages/compass-import-export/src/modules/import.ts:476-485 | the shown type is never 'undefined': 'undefined' becomes 'null', any other detected type is kept |
| SchemaInference.LoadTypes | packages/compass-import-export/src/modules/import.ts:464-490 | succeeds exactly when every non-placeholder field has an analysis, and then the fields equal `MergeTypes`; otherwise the first field with no analysis is found, the fields before it are merged and the rest are untouched; in both cases the fields equal `MergeUntilMissing` |
| SchemaInference.FirstMissing | packages/compass-import-export/src/modules/import.ts:464-476 | the position of the first non-placeholder field without an analysis, every field before it analysed; the length exactly when all are analysed |
| SchemaInference.MissingAtIsFirst | packages/compass-import-export/src/modules/import.ts:464-476 | a missing position with all fields before it analysed is that first one |
| SchemaInference.MergeUntilMissing | packages/compass-import-export/src/modules/import.ts:464-490 | what the loop leaves in the fields: same length, and the full merge when every field is analysed |
| SchemaInference.MergeTypesEffect | packages/compass-import-export/src/modules/import.ts:464-490 | placeholders kept; every other field becomes a CSV field with the same path and check mark, its analysis and its detected type ('null' for 'undefined') |
| SchemaInference.MergeKeepsSelectionShape | packages/compass-import-export/src/modules/import.ts:464-490 | the merge leaves no JSON field and keeps paths unmixed |
| StartImport.BuildFieldMap | packages/compass-import-export/src/modules/import.ts:251-257 | the loop returns `WriteFields(transform, exclude)`: keys are exactly the non-excluded `transform` names (the intended map; see Findings for `__proto__`) |
| StartImport.ProtoFieldDropped | packages/compass-import-export/src/modules/import.ts:251-257 | as written: a `__proto__` header typed by SET_FIELD_TYPE is a checked CSV field in `transform` and not excluded, yet the field map leaves it out, where `WriteFields` keeps it |
| StartImport.ProtoPlaceholderRetyped | packages/compass-import-export/src/modules/import.ts:891-922 | typing the `__proto__` placeholder lists it in `transform` with the new type and excludes nothing |
| StartImport.PlanImport | packages/compass-import-export/src/modules/import.ts:236-257 | CSV import exactly for a CSV file, with the field map `WriteFields(transform, exclude)` and the state's delimiter; blanks are ignored only for a CSV file with the option set; JSON lines exactly when multi-line; size from the stats, 0 without; stop-on-errors passed through |
| StartImport.PlanWritesSelection | packages/compass-import-export/src/modules/import.ts:251-257 | with a sound selection, a CSV import receives exactly the checked typed fields |
| StartImport.CeilDiv | packages/compass-import-export/src/modules/import.ts:307 | the least `q` with `q * d` at least `n`, as `Math.ceil(n / d)` |
| StartImport.Guesstimate | packages/compass-import-export/src/modules/import.ts:304-308 | at least the processed count; enough documents of the average size so far to cover the file; no larger than needed for either (0 when nothing was processed yet) |
| StartImport.GuesstimateExample | packages/compass-import-export/src/modules/import.ts:304-308 | 50 documents in 5000 bytes of a 100000-byte file give 1000 |
| StartImport.ProgressEffect | packages/compass-import-export/src/modules/import.ts:294-320 | after a progress report the state holds the reported counts, a copy of the errors and exactly `Guesstimate` as the guessed total, hence at least the processed count and covering the file; every other part of the state kept |
| StartImport.ImportRun.constructor | packages/compass-import-export/src/modules/import.ts:289 | a run starts with no errors |
| StartImport.ImportRun.OnError | packages/compass-import-export/src/modules/import.ts:290-292 | the error is appended |
| StartImport.ImportRun.OnProgress | packages/compass-import-export/src/modules/import.ts:294-320 | dispatches the guessed total, the guessed progress and a progress report carrying the errors collected so far |
| StartImport.SettleResolved | packages/compass-import-export/src/modules/import.ts:351-386 | a resolved run completes (with errors exactly when some were recorded) unless cancelled; total = processed count; controller dropped |
| StartImport.SettleRejected | packages/compass-import-export/src/modules/import.ts:387-407 | a rejected run always ends FAILED with its error recorded, cancelled or not |
| StartImport.RunResolvedCompletes | packages/compass-import-export/src/modules/import.ts:279-386 | a run whose importer resolves with no progress report (hence no error) between STARTED and FINISHED, and no cancel, ends COMPLETED with no errors |
| ImportThunks.CancelImportEffect | packages/compass-import-export/src/modules/import.ts:416-435 | no controller: nothing happens; with one: status CANCELED, controller dropped, all else kept; a second cancel is a no-op |
| ImportThunks.CancelDuringRun | packages/compass-import-export/src/modules/import.ts:351-435 | a cancelled run that then resolves stays CANCELED; one that rejects ends FAILED |
| ImportThunks.OpenImportEffect | packages/compass-import-export/src/modules/import.ts:731-750 | during a run only the in-progress message opens, the run kept; otherwise the dialog opens on the initial state |
| ImportThunks.SupersedeEffect | packages/compass-import-export/src/modules/import.ts:527-536 | a pending analysis is cancelled (status CANCELED, controller dropped); without one nothing changes |
| ImportThunks.LoadTypesSucceeds | packages/compass-import-export/src/modules/import.ts:447-501 | ANALYZE_STARTED, the typed fields as a new preview, ANALYZE_FINISHED: the analysis COMPLETED with its result |
| ImportThunks.LoadTypesFails | packages/compass-import-export/src/modules/import.ts:447-512 | a failed or incomplete analysis dispatches ANALYZE_STARTED then ANALYZE_FAILED without an error, and those leave only the analysis FAILED |
| ImportThunks.PreviewLoadSucceeds | packages/compass-import-export/src/modules/import.ts:516-585 | a CSV preview whose analysis covers every column ends in the typed preview, whether or not an analysis was pending, both by the actions and in the store |
| ImportThunks.PreviewLoadAnalysisFails | packages/compass-import-export/src/modules/import.ts:516-585 | otherwise the dispatched actions end with the untyped header fields previewed and the analysis FAILED |
| ImportThunks.PreviewOutcomeAnalysisFails | packages/compass-import-export/src/modules/import.ts:464-511 | in the store: the untyped preview when the analysis fails; when it misses a column, that preview with the fields before the column typed in place (`MergeUntilMissing`) |
| ImportThunks.PreviewListingFails | packages/compass-import-export/src/modules/import.ts:540-583 | a failed listing is swallowed: only the pending analysis is cancelled, the fields stay |
| ImportThunks.HeaderPreviewsSound | packages/compass-import-export/src/modules/import.ts:516-585 | the typed preview and the untyped one the actions give both leave the selection sound |
| ImportThunks.PreviewSupersedes | packages/compass-import-export/src/modules/import.ts:527-536 | a pending analysis is cancelled first; with none pending no cancel is dispatched |
| ImportThunks.FileSelectedAction | packages/compass-import-export/src/modules/import.ts:642-653 | CSV exactly for a CSV detection, JSON for JSON and JSON lines, multi-line exactly for JSON lines, a delimiter exactly for CSV |
| ImportThunks.SelectFileFails | packages/compass-import-export/src/modules/import.ts:624-665 | a missing, unreadable or unrecognised file fails the import, recording the error once |
| ImportThunks.SelectJsonFile | packages/compass-import-export/src/modules/import.ts:642-659 | a JSON file is selected without a delimiter, counters reset, fields emptied, no preview; the old `transform`/`exclude`/`values` survive |
| ImportThunks.SelectCsvFile | packages/compass-import-export/src/modules/import.ts:624-665 | a CSV file is selected with its delimiter and ends in the typed preview with a sound selection; no ANALYZE_CANCELLED is ever dispatched |
| ImportThunks.SelectCsvListingFailsKeepsSelection | packages/compass-import-export/src/modules/import.ts:624-665 | a CSV file whose header listing fails is selected with no fields but the previous `transform` and `exclude`, so the planned import writes the previous file's fields |
| ImportThunks.SetDelimiterNotCsv | packages/compass-import-export/src/modules/import.ts:670-695 | for a non-CSV file only the delimiter changes |
| ImportThunks.SetDelimiterSupersedes | packages/compass-import-export/src/modules/import.ts:670-695 | for a CSV file with a pending analysis, SET_DELIMITER is followed by ANALYZE_CANCELLED |
| ImportThunks.SetDelimiterReloadsPreview | packages/compass-import-export/src/modules/import.ts:670-695 | for a CSV file the preview is reloaded: new delimiter, newly typed header fields, sound selection |
| ImportThunks.ArrayHeaderFields | packages/compass-import-export/src/modules/import.ts:542-565 | headers `tags[0]`, `tags[1]`, `name` give `tags`, a placeholder `tags[1]` and `name` |
| ImportThunks.ArrayColumnsPreview | packages/compass-import-export/src/modules/import.ts:850-854 | previewing them lists only `tags` and `name` in `transform` |
| ImportThunks.ArrayPlaceholderEdits | packages/compass-import-export/src/modules/import.ts:861-922 | toggling the placeholder changes no field; typing it turns it into a CSV field |
| ImportThunks.TwoHeaderFields | packages/compass-import-export/src/modules/import.ts:542-565 | headers `a`, `b` give two checked 'mixed' CSV fields |
| ImportThunks.PartialMergeTypesFirst | packages/compass-import-export/src/modules/import.ts:464-490 | an analysis covering only `a` is incomplete, and the loop leaves `a` typed and `b` as it was |
| ImportThunks.StaleTransformUnsound | packages/compass-import-export/src/modules/import.ts:850-854 | with `a` typed in place, the preview's `transform` still writes `a` as 'mixed', so the selection is not sound |
| ImportThunks.MissingColumnBreaksSelection | packages/compass-import-export/src/modules/import.ts:464-575 | as written: after such an analysis the store shows `a` typed while the import would write it as 'mixed'; the dispatched actions alone keep the selection sound |

## Left out

- File-system access, stream creation, `listCSVFields`, `analyzeCSVFields`, `guessFileType`, `importCSV` and `importJSON` are external. Their outcomes are parameters (`Listing`, `Analysis`, `FileProbe`, `WriteOutcome`), and `csvHeaderNameToFieldName` is the `nameOf` parameter.
- Asynchrony: two preview loads or analyses racing, and late results of a superseded or orphaned analysis. The lemmas follow one thunk's dispatches without interleaving.
- The one-second throttle of the progress callback and its flush when the run settles.
- Logging, telemetry (`track`), `debug` and the `import-finished` app-registry emit. The emit and the namespace change are the action `Foreign`, which the reducer ignores.
- The abort signals themselves: `abort()` on a controller has no state effect here.
- Object identity and shared objects: errors and controllers are values with an `id`.
- Field objects shared between states: TOGGLE (import.ts:871) and SET_FIELD_TYPE (import.ts:904-905) write into the field objects in place, and the same objects sit in earlier states and in the array a pending `loadTypes` holds. A check mark set while an analysis is pending therefore survives into the typed preview in the code; a type set then does not, since `loadTypes` overwrites it with the detected one (import.ts:487-489), and only SET_FIELD_TYPE's `checked = true` remains. The model dispatches the typed header fields as listed, so such a check mark is lost there. The in-place writes of `loadTypes` itself are modelled (`ImportThunks.PreviewOutcome`).
- ImportThunks.LoadTypesFails: states the dispatched actions only. The fields the code types in place before the lookup throws are stated by `ImportThunks.PreviewOutcomeAnalysisFails`.
- ImportReducer.ToggleEffect: the code also sets `checked` on a placeholder whose path matches. No derived list reads it, so the model leaves placeholders unchanged.
- FieldSelection.Toggled: rests on the same choice; a placeholder has no check mark in the model, so a toggle leaves it unchanged.
- FieldSelection.Retyped: a SET_FIELD_TYPE with the type name 'placeholder' is outside the model. `CsvType` excludes that name, because it marks placeholders.
- StartImport.Guesstimate: requires a positive byte count. With no bytes processed the code divides by zero and gets Infinity or NaN. With no documents processed it gets 0, as the model does. Otherwise it divides in floating point, and rounding can differ from the exact integer ceiling used here.
- StartImport.SettleActions: a rejection without a `result` makes the code throw inside its own handler. That path is not modelled.
- ColumnAnalysis: the analyzer's per-column statistics are reduced to the detected type.
- The process-status and file-type constants, and the dialog components, are not part of this model.
- `closeImport`, `closeInProgressMessage`, `toggleIncludeField`, `setFieldType`, `setStopOnErrors` and `setIgnoreBlanks` only build an action. They are the corresponding `Action` constructors.

## Findings

| source | as written | input that shows it | evidently intended | confidence | as-written member | corrected member |
|---|---|---|---|---|---|---|
| packages/compass-import-export/src/modules/import.ts:542-557 | `fieldMap` is a plain object, so `fieldMap[uniqueName]` is truthy for any member name of Object.prototype | a CSV whose only header maps to `toString` (or `constructor`, `valueOf`, …) | the first header for a unique name gives a checked CSV field | medium, not executed | SchemaInference.PrototypeNameBecomesPlaceholder | SchemaInference.UniqueHeaderFields |
| packages/compass-import-export/src/modules/import.ts:251-257 | `fields` is a plain object, and `fields['__proto__'] = type` sets nothing, so that field is never handed to the importer | a CSV with a header `__proto__` whose placeholder the user gives a type (SET_FIELD_TYPE) | every non-excluded `transform` field is in the field map | low, not executed | StartImport.ProtoFieldDropped | StartImport.BuildFieldMap |
| packages/compass-import-export/src/modules/import.ts:464-490 | `loadTypes` writes types into the field objects SET_PREVIEW already stored, one by one, so an analysis that lacks a column leaves the earlier fields typed while `transform` still holds 'mixed' for them | headers `a`, `b` with an analysis that covers only `a` | a failed analysis leaves the previewed fields as they were, so what is shown is what is written | low, not executed | ImportThunks.MissingColumnBreaksSelection | ImportThunks.HeaderPreviewsSound |
