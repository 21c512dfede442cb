# LungAIR web application: a verified model of its core logic

The LungAIR web application is a customised build of the VolView medical
image viewer. It adds lung segmentation, median filtering and a FHIR-backed
patient browser. This project models five parts of it in Dafny and proves
properties about each part:

- **`LungairDataSource`** (`data_source.dfy`) models the spreadsheet data source that
  feeds the FHIR sandbox:
  - the table is loaded with Excel row numbers;
  - there is one patient per distinct `ID`. Its birth date has year 2010 or
    2011, month 1 to 12 and day 1 to 27, each drawn independently;
  - each patient's rows become observations. A row yields one observation per
    channel cell that is not missing. A cell is missing when its text is empty,
    whitespace only, or a `*` with whitespace around it. FiO2 is scaled from a
    fraction to a percentage. Each observation is dated at the birth date plus
    the row's `DOL` days. The first cell that `float` rejects aborts the call.
- **`LungairMethods`** (`client_state.dfy`) models the per-session bookkeeping of
  the image-processing server: which images a filter produced, and the two-way
  link between a base image and the image derived from it. This bookkeeping is
  what the `medianFilter` and `segmentLungs` handlers do to session state.
- **`ViteConfig`** (`vite_config.dfy`) models three pieces of the build configuration:
  - the `manualChunks` classifier;
  - the `load` hook that stubs out unused vtk.js modules;
  - `resolveNodeModulePath`, which climbs from a resolved file to the directory
    of an installed package.
- **`OverrideResolver`** (`override_resolver.dfy`) models the Rollup plugin that
  redirects an import of a core file to the file with the same relative path in
  the override directory, when such a file exists.
- **`SyncConfig`** (`sync_config.dfy`) models the script that points the `"@/*"`
  alias of `tsconfig.json` at the core directory.

`wrappers.dfy` holds `Option` and `Result`. `strings.dfy` holds prefix, suffix
and substring predicates on `string`.

The model works through the outside world as follows:
- Reading the spreadsheet, parsing numbers with `float`, `JSON.parse`, the file
  system, `require.resolve` and the image store are all parameters.
- Randomness is nondeterministic choice (`:|`).
- Dates are day ordinals of the proleptic Gregorian calendar, as
  `date.toordinal()` counts them. `OrdinalNextDay` proves that consecutive
  days have consecutive ordinals, so adding `DOL` days to a date adds `DOL` to
  its ordinal.

## Model

| member | source | states |
|---|---|---|
| LungairDataSource.ChannelIndex | lungair/fhir-sandbox-config/lungair_data_source.py:79-86 | the position of each observation type in the fixed channel order, and the channel at that position is the type |
| LungairDataSource.Load | lungair/fhir-sandbox-config/lungair_data_source.py:58-66 | row `i` of the sheet is kept as is and numbered `i + 2`, the number Excel shows; row numbers strictly increase |
| LungairDataSource.StripLeftSpec | lungair/fhir-sandbox-config/lungair_data_source.py:87 | stripping on the left removes a prefix made only of whitespace and stops at a non-whitespace character |
| LungairDataSource.StripRightSpec | lungair/fhir-sandbox-config/lungair_data_source.py:87 | stripping on the right removes a suffix made only of whitespace and stops at a non-whitespace character |
| LungairDataSource.StripSlice | lungair/fhir-sandbox-config/lungair_data_source.py:87 | `strip()` returns a slice of the cell text, everything cut on either side is whitespace, and the result neither starts nor ends with whitespace |
| LungairDataSource.MissingIffBlankOrStar | lungair/fhir-sandbox-config/lungair_data_source.py:87-89 | a cell counts as missing exactly when it is all whitespace or a single `*` surrounded by whitespace (both directions) |
| LungairDataSource.NotMissingHasText | lungair/fhir-sandbox-config/lungair_data_source.py:87-89 | a cell whose stripped text is neither empty nor `*` is neither blank nor whitespace around one `*` |
| LungairDataSource.SpaceBefore | lungair/fhir-sandbox-config/lungair_data_source.py:87-89 | proof helper for `NotMissingHasText`: every character inside an all-whitespace prefix of a text is whitespace |
| LungairDataSource.DaysInMonth | lungair/fhir-sandbox-config/lungair_data_source.py:10-14 | every month of the calendar has between 28 and 31 days |
| LungairDataSource.MonthTables | lungair/fhir-sandbox-config/lungair_data_source.py:77 | the days-before-month table advances by the length of each month, and the twelve months make 365 days, 366 in a leap year |
| LungairDataSource.Ordinal | lungair/fhir-sandbox-config/lungair_data_source.py:77 | 0001-01-01 is day 1 and every date has a positive ordinal |
| LungairDataSource.YearLength | lungair/fhir-sandbox-config/lungair_data_source.py:77 | consecutive years start 365 days apart, 366 after a leap year (the Gregorian 4/100/400 rule) |
| LungairDataSource.OrdinalNextDay | lungair/fhir-sandbox-config/lungair_data_source.py:77 | the day after any date except the last one `datetime` can represent has the next ordinal, across month and year ends, so a `timedelta` of `n` days adds `n` to the ordinal |
| LungairDataSource.Arange | lungair/fhir-sandbox-config/lungair_data_source.py:11-13 | `np.arange(start, stop)` holds `start, start+1, ...` and leaves out `stop` |
| LungairDataSource.NewPatient | lungair/fhir-sandbox-config/lungair_data_source.py:8-14 | the patient keeps its row, and its birth date is a valid date in 2010 or 2011 with a day from 1 to 27 |
| LungairDataSource.DistinctFirst | lungair/fhir-sandbox-config/lungair_data_source.py:69 | `drop_duplicates('ID')` keeps only rows of the table, covers every `ID` of the table, and keeps no `ID` twice |
| LungairDataSource.DistinctFirstIncreasing | lungair/fhir-sandbox-config/lungair_data_source.py:69 | dropping duplicates keeps the table order |
| LungairDataSource.DistinctFirstKeepsFirst | lungair/fhir-sandbox-config/lungair_data_source.py:69 | the row kept for an `ID` is its first occurrence |
| LungairDataSource.GetAllPatients | lungair/fhir-sandbox-config/lungair_data_source.py:68-70 | one patient per distinct `ID`, in order of first occurrence, each built from that first row with a birth date in range; no two patients share an `ID`, and every `ID` of the table has a patient |
| LungairDataSource.MatchingRows | lungair/fhir-sandbox-config/lungair_data_source.py:73-74 | the selected rows are exactly the rows with the patient's `ID`, in table order |
| LungairDataSource.GetPatientObservations | lungair/fhir-sandbox-config/lungair_data_source.py:72-103 | the method returns exactly the observations, or the error, that the specification function defines for the patient |
| LungairDataSource.CollectObservations | lungair/fhir-sandbox-config/lungair_data_source.py:75-77 | the outer loop over the patient's rows computes the row-by-row specification, including the abort at the first failing row |
| LungairDataSource.CollectRow | lungair/fhir-sandbox-config/lungair_data_source.py:79-101 | the inner loop over the six channels skips missing cells, scales FiO2, aborts on the first unparsable cell, and computes the cell-by-cell specification |
| LungairDataSource.RowStep | lungair/fhir-sandbox-config/lungair_data_source.py:79-101 | visiting one more channel extends the row's result by that cell's result |
| LungairDataSource.TableStep | lungair/fhir-sandbox-config/lungair_data_source.py:76-101 | visiting one more row extends the table's result by that row's result |
| LungairDataSource.RowPrefixFailure | lungair/fhir-sandbox-config/lungair_data_source.py:90 | once a cell fails, the rest of the row does not change the error |
| LungairDataSource.TablePrefixFailure | lungair/fhir-sandbox-config/lungair_data_source.py:90 | once a row fails, the rest of the table does not change the error |
| LungairDataSource.Present | lungair/fhir-sandbox-config/lungair_data_source.py:87-89 | the present channels are exactly the channels whose cells are not missing; there are as many as channels minus missing cells |
| LungairDataSource.CellObservationsSpec | lungair/fhir-sandbox-config/lungair_data_source.py:87-101 | a missing cell gives nothing; an unparsable cell gives the error carrying its stripped text; any other cell gives one observation with the row number, the date, the type and the value, scaled for FiO2 |
| LungairDataSource.RowObservationsFailure | lungair/fhir-sandbox-config/lungair_data_source.py:87-90 | a row fails exactly when one of its present cells is unparsable (both directions), and the error names the first such cell in channel order |
| LungairDataSource.RowObservationsSuccess | lungair/fhir-sandbox-config/lungair_data_source.py:87-101 | a successful row gives its present channels in order, and each observation reads its cell |
| LungairDataSource.PresentInChannelOrder | lungair/fhir-sandbox-config/lungair_data_source.py:79-89 | skipping missing cells keeps the channel order |
| LungairDataSource.ChannelsInOrder | lungair/fhir-sandbox-config/lungair_data_source.py:79-86 | the channel list is in channel order |
| LungairDataSource.RowObservationsShape | lungair/fhir-sandbox-config/lungair_data_source.py:79-101 | a successful row has one observation per present cell, in channel order, each with the row's number and date |
| LungairDataSource.AllKindsAreChannels | lungair/fhir-sandbox-config/lungair_data_source.py:79-86 | every observation type has a column in the channel list |
| LungairDataSource.TableObservationsFailure | lungair/fhir-sandbox-config/lungair_data_source.py:76-90 | a table fails exactly when some row has an unparsable present cell (both directions), and the error names such a cell |
| LungairDataSource.TableObservationsFirstFailure | lungair/fhir-sandbox-config/lungair_data_source.py:76-90 | the error of a failing table is raised by the first unparsable cell: in the first row that has one, and there first in channel order |
| LungairDataSource.TableObservationsSound | lungair/fhir-sandbox-config/lungair_data_source.py:76-101 | every observation reads a present, parsed cell of one of the rows, dated at birth date plus `DOL` |
| LungairDataSource.TableObservationsComplete | lungair/fhir-sandbox-config/lungair_data_source.py:76-101 | every present cell of every row gives an observation with that row number and type |
| LungairDataSource.RowHasObservation | lungair/fhir-sandbox-config/lungair_data_source.py:79-101 | a present cell of a successful row gives an observation |
| LungairDataSource.TableObservationsOrdered | lungair/fhir-sandbox-config/lungair_data_source.py:76-101 | observations come by increasing row number and, within a row, in channel order |
| LungairDataSource.InOrderAppend | lungair/fhir-sandbox-config/lungair_data_source.py:94-101 | appending observations that all come later keeps the order |
| LungairDataSource.PatientObservationsSound | lungair/fhir-sandbox-config/lungair_data_source.py:72-103 | every observation of a patient comes from a sheet row with the patient's `ID`, carries that row's Excel number and the date birth date plus `DOL`, and holds the parsed value of a present cell, scaled for FiO2 |
| LungairDataSource.LoadedRowIndex | lungair/fhir-sandbox-config/lungair_data_source.py:65 | each loaded row is sheet row `i` numbered `i + 2` |
| LungairDataSource.PatientObservationsComplete | lungair/fhir-sandbox-config/lungair_data_source.py:72-103 | every present cell of every sheet row with the patient's `ID` gives an observation with that row's number and type |
| LungairDataSource.PatientObservationsOrdered | lungair/fhir-sandbox-config/lungair_data_source.py:72-103 | a patient's observations are in sheet row order, and in channel order within a row |
| LungairDataSource.PatientObservationsFailure | lungair/fhir-sandbox-config/lungair_data_source.py:72-103 | the call raises exactly when a row with the patient's `ID` has a present cell that `float` rejects (both directions) |
| LungairMethods.ClientState.constructor | lungair/server/lungair_methods.py:33-36 | a new session has no associations and no derived ids |
| LungairMethods.ClientState.GetBaseImage | lungair/server/lungair_methods.py:67-70 | a derived image maps to its base, and the lookup never fails; any other id is its own base |
| LungairMethods.ClientState.AssociateImages | lungair/server/lungair_methods.py:61-64 | the derived id is recorded, both directions of the link are set (the second write wins when the two ids are equal), nothing else changes, and the bookkeeping invariant is kept |
| LungairMethods.ClientState.HandleRequest | lungair/server/lungair_methods.py:87-101 | a request works on the base image; it reuses the existing derived image when there is a non-empty one and leaves the state alone; otherwise it associates the new image, whose base is then the request's base, so that a repeated request reuses it |
| LungairMethods.MedianThenSegmentShared | lungair/server/lungair_methods.py:82-101 | with one session state shared by both handlers, a segmentation after a median filter on the same image creates nothing and shows the blurred image |
| LungairMethods.MedianThenSegmentSeparate | lungair/server/lungair_methods.py:122-141 | with one state per operation, that segmentation creates and shows its own image |
| ViteConfig.ManualChunks | lungair/vite.config.ts:70-81 | the chunk of each module id, in the priority vuetify, vtk.js, vendor, none; each case as an if-and-only-if |
| ViteConfig.Load | lungair/vite.config.ts:119-138 | only vtk.js modules are stubbed: ColorMaps gets an empty array, CubeAxesActor, ScalarBarActor and WebGPU modules an empty default export, the rest load normally |
| ViteConfig.ReplaceBackslashes | lungair/vite.config.ts:34 | every backslash becomes a slash, every other character stays, and no backslash remains |
| ViteConfig.LastSeparator | lungair/vite.config.ts:37 | the index of the last slash or backslash, or none when there is none |
| ViteConfig.Dirname | lungair/vite.config.ts:37-38 | the parent is either the path itself (a root, or `"."`) or lower in a rank that counts `"."` as 0 and any other path as its length plus one, so the upward walk ends |
| ViteConfig.ResolveNodeModulePath | lungair/vite.config.ts:31-43 | the loop computes the upward walk from the resolved file (backslashes rewritten on Windows); a result ends with the module name, a failure is the "Could not resolve" error |
| ViteConfig.WalkUpResult | lungair/vite.config.ts:35-41 | the walk ends in a path ending with the module name, or in the "Could not resolve" error |
| ViteConfig.WalkUpFindsNearest | lungair/vite.config.ts:35-41 | a successful walk returns the nearest ancestor that ends with the module name; no closer one does |
| ViteConfig.WalkUpFailsAtRoot | lungair/vite.config.ts:38-39 | a failed walk reached a path that is its own parent, and no path on the way ends with the module name |
| ViteConfig.AncestorShift | lungair/vite.config.ts:37-40 | climbing `n + 1` levels is climbing one level, then `n` |
| OverrideResolver.Prefix | customizeUtils/common.js:18-19 | a directory prefix is the directory followed by `/` |
| OverrideResolver.JoinRelativeTo | customizeUtils/vite/rollup-plugin-override-resolver.ts:45-48 | joining a relative path to a directory and taking it relative again are inverse to each other |
| OverrideResolver.OverrideLookup | customizeUtils/vite/rollup-plugin-override-resolver.ts:12-23 | a relative path is in the lookup exactly when a regular file sits at that path under the override directory |
| OverrideResolver.ResolveId | customizeUtils/vite/rollup-plugin-override-resolver.ts:31-50 | unresolved or external imports, imports from the override directory, ids outside the core directory and core files without an override are passed through unchanged; otherwise only the id changes, to the same relative path under the override directory, which is in the lookup |
| SyncConfig.OrEmpty | customizeUtils/bin/syncConfig.mjs:19-20 | `x ||= {}` keeps a truthy member and replaces a missing or falsy one by `{}`; the result is truthy |
| SyncConfig.Updated | customizeUtils/bin/syncConfig.mjs:19-23 | the update throws a TypeError exactly when a level it writes to is a primitive; on objects it sets `compilerOptions.paths["@/*"]` to the core alias and keeps every other member at all three levels. A `paths` that `||= {}` creates afresh holds only the alias. A truthy array, whether the whole value, `compilerOptions` or `paths`, is written back unchanged |
| SyncConfig.UpdatedIsIdempotent | customizeUtils/bin/syncConfig.mjs:9-34 | running the update on its own output changes nothing |
| SyncConfig.ParseInput | customizeUtils/bin/syncConfig.mjs:14 | an empty file is parsed as `{}` |
| SyncConfig.Sync | customizeUtils/bin/syncConfig.mjs:9-34 | a read or parse failure and a write failure give "Failed to parse tsconfig.json"; a TypeError in the update comes first; otherwise the updated value is what is written |
| SyncConfig.EmptyFileGetsOnlyTheAlias | customizeUtils/bin/syncConfig.mjs:14-23 | an empty configuration becomes exactly the nested object holding the alias |

## Left out

- Reading the Excel file with pandas is not modelled. The model takes the parsed table as a sequence of rows, with each cell as text. A blank Excel cell reaches the program as NaN, whose text is `'nan'`: it is not skipped as missing, and `float` accepts it. The model's empty text does not stand for a blank Excel cell, and the NaN observations such cells give are not modelled.
- `DOL` is taken to be an integer already, as `int(row['DOL'])` makes it. A non-numeric `DOL` raising `ValueError` is not modelled.
- `float` is a parameter, `parse`. Python's numeric syntax and floating-point rounding are not modelled, so the FiO2 scaling is exact real multiplication.
- The `OverflowError` of a date outside years 1 to 9999 is not modelled. Such a date can come from a large `DOL`, or from a negative one that reaches before year 1. Observation dates are ordinals, and `NextDay` requires a date before the last one.
- `get_dob`, `get_time` and the identifier-system strings of the data source are formatting only, and are not modelled.
- The random draw of the birth date is a nondeterministic choice. Its distribution is not modelled.
- `get_all_patients` returns a lazy generator. The model builds the whole sequence, so a different birth date per consumer is not modelled.
- Blank `ID` cells are not modelled: the model's `ID` is always text. In the program a blank `ID` stays NaN. `drop_duplicates` then merges all blank-`ID` rows into one patient. That patient's identifier `'nan'` selects no rows, so it has no observations.
- Concurrent requests are not modelled. Each handler awaits between looking up the base image and testing for a derived image, so two overlapping requests on one image can both create and associate an image. The model runs requests one after the other.
- The image filters, the process pool, the asyncio event loop, the image store and `show_image` are not modelled. `HandleRequest` takes the id the store gives a new image as a parameter.
- `require.resolve` is not modelled. `ResolveNodeModulePath` takes the resolved path as a parameter, and the platform as a flag.
- ViteConfig.Dirname: drive letters, UNC roots and trailing separators of `path.win32.dirname` are not modelled. The model drops the last segment and keeps a leading root separator.
- `normalizePath`, `path.resolve` and the glob's own matching are not modelled. Paths are taken as already normalised and absolute, and the glob's results are a parameter.
- The `this.resolve` call of the resolver plugin and Rollup's options are not modelled. The handler receives the resolution as a parameter.
- SyncConfig.Sync: `JSON.parse`, `JSON.stringify` formatting and the order of object members are not modelled. Objects are maps, and the parser is a parameter.
- The rest of the Vite configuration is plain data, with no logic to prove, and is not modelled: aliases, Sentry, static copies, the server proxy.

## Findings

| source | as written | input that shows it | evidently intended | confidence | as-written member | corrected member |
|---|---|---|---|---|---|---|
| lungair/server/lungair_methods.py:82,122,135-141 | `median_filter` and `segment_lungs` keep their derived images in the same session state | a median filter on image A creates B; then `segmentLungs` on A finds B linked to A, overwrites B with the segmentation and shows it | each operation keeps its own derived image, so the segmentation creates its own image | not executed; medium | LungairMethods.MedianThenSegmentShared | LungairMethods.MedianThenSegmentSeparate |
