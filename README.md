# VizCount inventory core, modelled in Dafny

VizCount tracks the meat department of a store. It has three parts:

- **The dashboard** (Streamlit, Python). It loads one inventory frame per product category: one row per product, with cooler and floor counts and days to expiry. From that frame it derives:
  - an expiry timeline bucketed by days;
  - a colour-coded inventory table with a status column;
  - three KPI cards;
  - an alert panel for expired, today's and tomorrow's rows;
  - a sidebar with a badge per category and global quick stats.
- **The mobile app** (React Native, TypeScript). It keeps a local `defined_products` table. Users edit it through a form that validates, creates or updates, and lists records newest first with a search box. A product picker groups products into sections by the first word of their name. A seeder fills the table on first run. A generator wipes `scanned_items` and refills it with random dummy items.
- **The sync-stream function** (Python Cloud Function). It receives the app's scanned items and sales-floor rows. It inserts the scanned items into Snowflake's `SCANNED_ITEMS` and upserts the sales-floor rows into `SALES_FLOOR` by PID with `MERGE`.

## How the model is built

- **One Dafny module per source file**, plus shared modules: `Text` for the string operations the code relies on, `Seqs` for filter, sum and sort, `Frames` for the frame row and its masks, and `DefinedProducts` for the app's table.
- **Pure code becomes functions with lemmas.** This covers the dashboard helpers, grouping, validation, `normalizeType`, `getRandomInt` and `ms_to_timestamp`.
- **State-changing code becomes methods.**
  - Methods on classes, with `modifies` frames: `ProductTable`, `DefinitionForm`, `ItemStore` and `Warehouse`.
  - Methods with loops and invariants: the `_mock_data` loop, the `expiry_counts` loop, the product-picker `forEach`, the dummy-data batching loop and the `MERGE` loop.

### Inputs that become parameters

- **Randomness.** Python's `random` draws and JavaScript's `Math.random()` results are parameters, each with its range.
  - The dashboard reseeds with 42 at every `_mock_data` call, so every category reads the same draw stream: row k of any category uses draw k.
- **Clocks.** `today`, `Date.now()` and `CURRENT_TIMESTAMP()` are parameters.
- **Environment.** Environment variables are an `Env` value.
- **Failures.** The outcome of a database write or fetch is a boolean. A Snowflake connection failure is an optional error message.

### String operations

- `localeCompare` and the default `Array.prototype.sort()` are both modelled by code-point order (`Text.StrLe`). The default sort compares UTF-16 code units, which agrees with code-point order except between characters above U+FFFF and those from U+E000 to U+FFFF.
- `toLowerCase` is ASCII lower-casing.
- `trim` and `parseInt` skip a fixed set of white-space characters.
- `parseInt(s, 10)` reads an optional sign and the leading digits. `None` stands for `NaN`.

## Model

| member | source | states |
|---|---|---|
| Settings.ProductsOf | vizcount-dashboard/config/settings.py:15-38 | `PRODUCTS[category]` is the product list of the catalogue entry with that name |
| Settings.CatalogueShape | vizcount-dashboard/config/settings.py:15-38 | every category has at most 8 products and category names are distinct |
| Settings.BucketColorsMatchOrder | vizcount-dashboard/config/settings.py:43-51 | `BUCKET_COLORS` has exactly the buckets of `BUCKET_ORDER`, which are distinct |
| Charts.ExpiryBucket | vizcount-dashboard/components/charts.py:16-21 | every number of days lands in one of the five `BUCKET_ORDER` labels |
| Charts.ExpiryBucketCases | vizcount-dashboard/components/charts.py:16-21 | each bucket label holds exactly its days: negative, 0, 1, 2, and 3 or more (3 and 4 days included) |
| Charts.ExpiryBucketMonotone | vizcount-dashboard/components/charts.py:16-21 | a later expiry never falls in an earlier bucket of the timeline |
| Charts.BucketCount | vizcount-dashboard/components/charts.py:57-60 | a bucket's sum over a frame of non-negative counts lies between 0 and the frame's total |
| Charts.BucketTable | vizcount-dashboard/components/charts.py:55-64 | the reindexed table has one bar per bucket of `BUCKET_ORDER`, no bucket twice |
| Charts.BucketTableShape | vizcount-dashboard/components/charts.py:55-64 | the reindexed table has the five buckets in order with their colours, and a bucket no row falls into shows 0 |
| Charts.BucketCountsConserveTotal | vizcount-dashboard/components/charts.py:56-60 | each row's `total_count` is counted in exactly one bucket, so the bucket sums add up to the frame's total |
| Charts.BucketTableTotal | vizcount-dashboard/components/charts.py:57-64 | the bars of the timeline add up to the frame's total item count |
| Charts.EmptyBucketIsZero | vizcount-dashboard/components/charts.py:57-60 | the fill value: a bucket with no row sums to 0 |
| InventoryTable.RowColor | vizcount-dashboard/components/inventory_table.py:19-29 | one style per column of the row, the same for all columns |
| InventoryTable.RowColorCases | vizcount-dashboard/components/inventory_table.py:19-29 | red exactly for expired rows, amber exactly for today, blue exactly for 1-2 days, none from 3 days |
| InventoryTable.FmtStatus | vizcount-dashboard/components/inventory_table.py:32-36 | each kind of status text belongs to exactly its days: "Expired …" for negative days, "Expires Today" for 0, "Tomorrow" for 1, "In …" from 2 |
| InventoryTable.FmtStatusInjective | vizcount-dashboard/components/inventory_table.py:32-36 | distinct days never share a status text |
| InventoryTable.DisplayFrame | vizcount-dashboard/components/inventory_table.py:45-57 | the display frame keeps the rows in order with the five columns copied, and the Status column determines the Days column: two rows share a status exactly when they share their days |
| InventoryTable.RowColorRenamed | vizcount-dashboard/components/inventory_table.py:60-70 | one style per displayed column, the same for all columns |
| InventoryTable.RowColorRenamedAgrees | vizcount-dashboard/components/inventory_table.py:60-70 | the renamed helper picks the same style for every displayed row as `_row_color` does for the frame row it came from |
| Metrics.KpiRow | vizcount-dashboard/components/metrics.py:26-31 | the cooler and floor totals are column sums; "unique products" is the row count; the rows within 1-2 days are part of those within 0-2 days, and the difference is the rows due today |
| Alerts.GroupsDisjoint | vizcount-dashboard/components/alerts.py:13-15 | no row is in two alert groups, and each group keeps the frame's order |
| Alerts.BoxForFacts | vizcount-dashboard/components/alerts.py:23-51 | a box appears exactly when its group has rows, with the group's size and its names joined by ", " |
| Alerts.RenderAlerts | vizcount-dashboard/components/alerts.py:12-18 | the panel is absent exactly when no row has at most 1 day left |
| Alerts.RenderAlertsBoxes | vizcount-dashboard/components/alerts.py:20-51 | a shown panel has 1 to 3 boxes, each with its group's count and names |
| Alerts.RenderAlertsShowsNonEmptyGroups | vizcount-dashboard/components/alerts.py:23-51 | in a shown panel, a group has a box exactly when it has rows |
| Loader.MockRow | vizcount-dashboard/data/loader.py:34-44 | a mock row copies its draw: cooler 8-80 and floor 2-25; its days are one of `EXPIRY_OFFSETS` and equal expiry minus today; total is cooler plus floor |
| Loader.MockFrame | vizcount-dashboard/data/loader.py:30-45 | one row per product in order, each with those ranges and identities |
| Loader.MockData | vizcount-dashboard/data/loader.py:30-45 | the appending loop builds exactly the mock frame |
| Loader.MockFrameSharedStream | vizcount-dashboard/data/loader.py:30-34 | because of the reseed, row k of any two categories has the same counts and days |
| Loader.LoadCategoryData | vizcount-dashboard/data/loader.py:86-89 | a category's frame has one row per product of that category, row i for product i |
| Loader.LoadAllDataParts | vizcount-dashboard/data/loader.py:92-96 | each part of the concatenation is that category's `load_category_data` |
| Loader.LoadAllData | vizcount-dashboard/data/loader.py:92-96 | the combined frame has 34 rows, the size of the catalogue |
| Sidebar.Badge | vizcount-dashboard/components/sidebar.py:43-46 | a category's badge counts the rows of its frame with at most 1 day left, and never exceeds the category's size |
| Sidebar.ExpiryCounts | vizcount-dashboard/components/sidebar.py:43-46 | the loop fills `expiry_counts` with exactly the category names, each with its badge |
| Sidebar.BadgeLabel | vizcount-dashboard/components/sidebar.py:51 | an option label starts with its category name and is longer than it |
| Sidebar.OptionLabels | vizcount-dashboard/components/sidebar.py:48-53 | the options are the categories in catalogue order, each labelled with its badge, and no two options share a label, so a label identifies its category |
| Sidebar.QuickStats | vizcount-dashboard/components/sidebar.py:64-66 | the quick stats count the combined frame's rows due today and already expired; together they never exceed the rows needing attention |
| Sidebar.QuickStatsNeedAttention | vizcount-dashboard/components/sidebar.py:64-66 | today's rows and expired rows together are at most the rows with at most 1 day left, as the two kinds never overlap |
| Sidebar.BadgesCountAttention | vizcount-dashboard/components/sidebar.py:43-46 | the badges add up to the rows of `load_all_data()` with at most 1 day left |
| Sidebar.QuickStatsWithinBadges | vizcount-dashboard/components/sidebar.py:43-66 | the two quick stats together never exceed the sum of the badges |
| Sidebar.RenderSidebar | vizcount-dashboard/components/sidebar.py:43-91 | the sidebar shows the badges, the labels, the chosen category and the quick stats, and returns the chosen category |
| ProductPicker.GroupKey | vizcount-app/components/ProductPickerModal.tsx:34 | no contract of its own: `GroupKeyCases` states what the key is |
| ProductPicker.GroupKeyCases | vizcount-app/components/ProductPickerModal.tsx:34 | the section key is never empty; it is "Other" when the name is empty or starts with a space, otherwise the text before the first space |
| ProductPicker.InGroupMembers | vizcount-app/components/ProductPickerModal.tsx:33-41 | a group holds exactly the products whose key it is |
| ProductPicker.DedupPid | vizcount-app/components/ProductPickerModal.tsx:38-40 | the `find` check never keeps more products than it is given |
| ProductPicker.DedupPidFacts | vizcount-app/components/ProductPickerModal.tsx:38-40 | the `find` check keeps products of the input only, with distinct PIDs, and every PID of the input is kept |
| ProductPicker.DedupKeepsFirst | vizcount-app/components/ProductPickerModal.tsx:38-40 | the first product with a given PID is the one kept |
| ProductPicker.DedupOnlyFirst | vizcount-app/components/ProductPickerModal.tsx:38-40 | every product kept is the first one with its PID |
| ProductPicker.Grouped | vizcount-app/components/ProductPickerModal.tsx:33-41 | no contract of its own: `GroupedKeys` and `GroupedAt` state which groups the pass builds and what each holds |
| ProductPicker.GroupedKeys | vizcount-app/components/ProductPickerModal.tsx:33-41 | the groups are keyed by exactly the keys of the products |
| ProductPicker.GroupedAt | vizcount-app/components/ProductPickerModal.tsx:33-41 | each group is the deduplicated run of that key's products in input order |
| ProductPicker.GroupByFirstWord | vizcount-app/components/ProductPickerModal.tsx:31-41 | the `forEach` loop throws exactly when some product's first word names a member every object inherits; otherwise it builds those groups, and records each key once |
| ProductPicker.AddToGroup | vizcount-app/components/ProductPickerModal.tsx:34-40 | a key naming an inherited member finds that member instead of a group, so `.find` throws and nothing changes; otherwise the product creates its group when the key is new and joins it unless the group has its PID already; the recorded keys stay distinct and match the groups |
| ProductPicker.PlainKeysIff | vizcount-app/components/ProductPickerModal.tsx:34-38 | the pass runs through exactly when no product's first word names an inherited member |
| ProductPicker.NotPlainKeys | vizcount-app/components/ProductPickerModal.tsx:34-38 | one product whose first word names an inherited member is enough for the pass to throw |
| ProductPicker.InheritedKeyThrows | vizcount-app/components/ProductPickerModal.tsx:34-38 | a product named, for example, "constructor" or "toString X" makes the grouping throw |
| ProductPicker.SortGroups | vizcount-app/components/ProductPickerModal.tsx:44-46 | each group is replaced by itself sorted by name |
| ProductPicker.Section | vizcount-app/components/ProductPickerModal.tsx:30-49 | a section never lists more products than the picker is given |
| ProductPicker.SectionMembers | vizcount-app/components/ProductPickerModal.tsx:30-49 | a section holds products of the input with that key and distinct PIDs, sorted by name |
| ProductPicker.SectionCovers | vizcount-app/components/ProductPickerModal.tsx:30-49 | every product's PID appears in its section, and a section is non-empty exactly when some product has its key |
| ProductPicker.DedupWithinSection | vizcount-app/components/ProductPickerModal.tsx:38-40 | duplicates are removed only within a section: a PID under two keys is listed in both sections |
| ProductPicker.GroupProducts | vizcount-app/components/ProductPickerModal.tsx:30-52 | the grouping fails exactly when some product's first word names an inherited member, and then there are no sections; otherwise the sections are keyed by the products' keys, each group is its sorted deduplicated section, and `sectionNames` lists every key once, sorted |
| ProductDefinition.CheckForm | vizcount-app/components/ProductDefinitionModal.tsx:72-83 | an accepted form has three non-blank fields, and its numbers are what `parseInt` reads from the PID and pack |
| ProductDefinition.CheckFormCases | vizcount-app/components/ProductDefinitionModal.tsx:72-83 | a blank field rejects first; otherwise a `NaN` PID or pack rejects; otherwise the form is accepted with the parsed numbers |
| ProductDefinition.LeadingIntegerAccepted | vizcount-app/components/ProductDefinitionModal.tsx:77-80 | with a non-blank name, a PID typed as an integer followed by text not starting with a digit ("12abc") and a pack typed as an integer, the form passes validation with the integers alone (12) |
| ProductDefinition.MatchesQuery | vizcount-app/components/ProductDefinitionModal.tsx:305-308 | an empty query matches every product |
| ProductDefinition.SearchFilter | vizcount-app/components/ProductDefinitionModal.tsx:305-308 | the list shows exactly the products whose lower-cased name contains the lower-cased query or whose PID text contains the query |
| ProductDefinition.SearchFilterOrder | vizcount-app/components/ProductDefinitionModal.tsx:305-308 | the filtered list keeps the fetched order, and an empty query shows everything |
| ProductDefinition.FetchOrder | vizcount-app/components/ProductDefinitionModal.tsx:50-55 | the fetched list is a permutation of the table, newest `createdAt` first |
| ProductDefinition.DefinitionForm.HandleSave | vizcount-app/components/ProductDefinitionModal.tsx:71-115 | validation failures and failed writes change nothing; a save updates the edited record or creates one with a fresh id, then resets the form |
| ProductDefinition.DefinitionForm.ResetForm | vizcount-app/components/ProductDefinitionModal.tsx:105-110 | after a save the fields are empty, the type is the first of the list and nothing is being edited; the list and the query are kept |
| ProductDefinition.DefinitionForm.HandleEdit | vizcount-app/components/ProductDefinitionModal.tsx:117-123 | editing loads the product's fields into the form, the numbers as decimal text |
| ProductDefinition.DefinitionForm.FetchProducts | vizcount-app/components/ProductDefinitionModal.tsx:50-59 | a successful fetch replaces the list with the table sorted newest first; a failed one keeps the list |
| ProductDefinition.EditThenSave | vizcount-app/components/ProductDefinitionModal.tsx:71-123 | saving an edited product with a non-blank name unchanged passes validation with its own PID and pack |
| DefinedProducts.UpdateRecordFacts | vizcount-app/components/ProductDefinitionModal.tsx:89-94 | an update rewrites the four fields of the named record only, keeping its id and creation time |
| DefinedProducts.NewRecords | vizcount-app/db/seed.ts:42-51 | a batch of creates appends one record per entry with consecutive fresh ids |
| DefinedProducts.ProductTable.Create | vizcount-app/components/ProductDefinitionModal.tsx:96-101 | a create appends one record with a fresh id and keeps ids distinct |
| DefinedProducts.ProductTable.Update | vizcount-app/components/ProductDefinitionModal.tsx:89-94 | the table after an update is `UpdateRecord` of the old one |
| DefinedProducts.ProductTable.CreateBatch | vizcount-app/db/seed.ts:51 | a batch appends `NewRecords` of its entries |
| Seed.NormalizeType | vizcount-app/db/seed.ts:14-15 | a recognised type becomes one of the form's product types, equal to the given one up to letter case; any other type is kept |
| Seed.NormalizeTypeCases | vizcount-app/db/seed.ts:14-15 | a type whose lower-cased form is a key maps to that key's spelling; any other type is kept as given |
| Seed.TypeMapValues | vizcount-app/db/seed.ts:5-12 | every value of `TYPE_MAP` is one of the form's product types and lower-cases back to its own key |
| Seed.NormalizeTypeCaseInsensitive | vizcount-app/db/seed.ts:14-15 | a recognised type normalises the same in any letter case, to a form product type |
| Seed.NormalizeTypeIdempotent | vizcount-app/db/seed.ts:14-15 | normalising twice is normalising once |
| Seed.SeedCreates | vizcount-app/db/seed.ts:43-50 | one create per seed entry, copying its name, PID and pack and normalising its type |
| Seed.Seeded | vizcount-app/db/seed.ts:31-52 | seeding only appends: the old records stay first, and the id counter advances by the number of records added |
| Seed.SeededFacts | vizcount-app/db/seed.ts:31-52 | a populated table is left alone; an empty one receives the 11 entries with types from the form's list |
| Seed.SeedIdempotent | vizcount-app/db/seed.ts:36-40 | seeding a second time changes nothing |
| Seed.SeedDefinedProducts | vizcount-app/db/seed.ts:31-58 | the table after seeding: unchanged on failure or when populated, otherwise the seed batch |
| DummyData.GetRandomInt | vizcount-app/db/dummyData.ts:53-55 | a draw in [0, 1) gives an integer in [min, max] |
| DummyData.GetRandomIntReaches | vizcount-app/db/dummyData.ts:53-55 | every integer in [min, max] is the outcome of some draw |
| DummyData.GetRandomFloat | vizcount-app/db/dummyData.ts:57-59 | the rounded weight lies in [min, max] |
| DummyData.GenerateRandomDates | vizcount-app/db/dummyData.ts:62-93 | packing is 1 to 30 whole days before the clock and best-before is 1 to 30 whole days after it |
| DummyData.ExpiryBands | vizcount-app/db/dummyData.ts:74-85 | best-before is tomorrow exactly when the band draw is below 0.1; 2-3 days exactly for 0.1-0.3; 4-7 exactly for 0.3-0.6; 8-30 otherwise |
| DummyData.CatalogRanges | vizcount-app/db/dummyData.ts:5-51 | every weight range of the catalogue is a proper interval |
| DummyData.MakeItem | vizcount-app/db/dummyData.ts:117-133 | no contract of its own: `MakeItemFacts` states what an item copies and draws |
| DummyData.MakeItemFacts | vizcount-app/db/dummyData.ts:117-133 | an item copies the catalogue entry its draw picks, with a weight in range and the clock between its dates |
| DummyData.Items | vizcount-app/db/dummyData.ts:113-133 | no contract of its own: `ItemsFacts` states the serials and the copied entries |
| DummyData.ItemsFacts | vizcount-app/db/dummyData.ts:113-133 | the k-th item has serial start + k + 1, so serials strictly increase, and it copies its catalogue entry |
| DummyData.CreateBatches | vizcount-app/db/dummyData.ts:135-140 | the create batches together create exactly the n items |
| DummyData.CreateBatchesFacts | vizcount-app/db/dummyData.ts:135-140 | the create batches hold every item once, in ceil(n/100) batches of 1 to 100 items, all but the last full |
| DummyData.GenerateItems | vizcount-app/db/dummyData.ts:111-141 | the loop creates exactly the generated items, flushed in those batches |
| DummyData.NextItem | vizcount-app/db/dummyData.ts:117-132 | the item made from an iteration's draws, with the next serial number, extends the items generated so far by exactly one |
| DummyData.QueueCreate | vizcount-app/db/dummyData.ts:123-140 | an item joins the pending creates; they are written as one batch on reaching 100 or on the last iteration, so the store plus the queue always hold the items so far and the log holds the batches of the items written |
| DummyData.WipeAndGenerate | vizcount-app/db/dummyData.ts:95-150 | a failed write changes nothing and returns false; otherwise everything is destroyed in one batch, then `count` items are created, and true is returned |
| SyncStream.GetSecret | backend/sync-stream/main.py:23-34 | the password is returned exactly when the variable is set and non-empty, otherwise the fixed error |
| SyncStream.MsToTimestamp | backend/sync-stream/main.py:37-45 | no timestamp exactly for a missing value or 0, otherwise the instant of those milliseconds |
| SyncStream.MsToTimestampInjective | backend/sync-stream/main.py:37-45 | distinct non-zero instants give distinct timestamps |
| SyncStream.ScannedTupleOf | backend/sync-stream/main.py:136-147 | a scanned entry projects exactly when it has pid, sn and name; otherwise it fails with the KeyError text of the first missing one |
| SyncStream.ProjectScanned | backend/sync-stream/main.py:136-147 | the rows, when built, are one per entry; a failure is the KeyError of `pid`, `sn` or `name` |
| SyncStream.ProjectScannedFacts | backend/sync-stream/main.py:134-157 | the insert rows exist exactly when every entry has its keys, one per entry in order; otherwise the error is that of the first bad entry |
| SyncStream.SalesTupleOf | backend/sync-stream/main.py:196-202 | a sales entry projects exactly when it has pid and name, with KeyError text otherwise |
| SyncStream.MergeRow | backend/sync-stream/main.py:176-203 | a `MERGE` adds the PID if new, writes the four columns, stamps `UPDATED_AT` only on a match, and leaves other PIDs alone |
| SyncStream.MergeRows | backend/sync-stream/main.py:172-203 | the loop never removes a PID, and a failure is the KeyError of `pid` or `name` |
| SyncStream.MergeRowsError | backend/sync-stream/main.py:172-203 | a bad entry stops the loop with its KeyError, keeping the merges of the entries before it |
| SyncStream.MergeRowsComplete | backend/sync-stream/main.py:172-203 | with every entry keyed, the loop completes without error |
| SyncStream.MergeRowsUntouched | backend/sync-stream/main.py:176-195 | a PID no entry carries is neither added nor changed |
| SyncStream.MergeRowsLastWins | backend/sync-stream/main.py:170-195 | re-sending a PID updates instead of duplicating: each PID ends with the values of its last entry |
| SyncStream.MergeRowsKeys | backend/sync-stream/main.py:176-195 | the table's PIDs are the old ones plus those sent |
| SyncStream.Precheck | backend/sync-stream/main.py:80-118 | the checks run in order: 400 for a falsy body, an uncaught error for a non-object body, then 500 for missing credentials, for the password, and for the connection |
| SyncStream.StreamToSnowflake | backend/sync-stream/main.py:48-218 | nothing is written before the checks pass; scanned items are inserted all or none; sales rows merge up to the first bad one; 200 with both counts only when every entry is keyed |
| Text.ParseIntOfIntToString | vizcount-app/components/ProductDefinitionModal.tsx:77-78 | `parseInt` reads back the decimal text of any integer, ignoring a tail that does not start with a digit |
| Text.TrimEmptyIffBlank | vizcount-app/components/ProductDefinitionModal.tsx:72 | a field trims to empty exactly when it is all white space |
| Text.NatToStringInjective | vizcount-dashboard/components/inventory_table.py:32-36 | the decimal text of a number determines the number |

## Left out

- The OCR scanning pipeline, the camera and date pickers, the tabs and every other screen of the app are not part of this model.
- All rendering is left out: Streamlit markup, Plotly figures, icons, HTML and React Native views. The model keeps the values these display.
- The product-list bar chart of `render_charts_row` is left out. It only plots two columns of the frame.
- `handleDelete` of the definition form is left out. It only destroys one record after a confirmation dialog.
- The App Check verification is left out. It is commented out in the function.
- Logging is left out.
- Snowflake SQL is modelled by its effect on two tables: an append to `SCANNED_ITEMS` and a map keyed by PID for `SALES_FLOOR`.
  - Column types, the `UPDATED_AT` default on insert (kept as `None`) and duplicate PIDs already in the table are not modelled.
  - The Snowflake connector's autocommit is taken as on, so merges before a failing entry stay written.
- SyncStream.MergeRows: every `MERGE` of one request is stamped with one clock reading `now`. In the source, each statement reads `CURRENT_TIMESTAMP()` when it runs, so later merges may carry later stamps.
- Failures of `executemany`, `execute`, `cursor()` and `close()` are not modelled. Neither is the unbound `cur` in the `finally` clause when `cursor()` fails.
- A payload key present with a `null` value or a non-list value is not modelled. The model has a value for each key, or no key at all.
- A database write in the app either succeeds as a whole or fails before changing anything. A failure between two batches of `wipeAndGenerateDummyData` is not modelled.
- DefinedProducts.ProductTable.Update: updating a record that no longer exists is a no-op here, where WatermelonDB would throw.
- Record ids are a counter. WatermelonDB's random string ids are not modelled.
- `ScannedItem` fields are those `wipeAndGenerateDummyData` writes: `sn`, `pid`, `name`, `netKg`, `count` and the two dates. The app's model class declares other columns.
- DummyData.GetRandomFloat: `toFixed(2)` is modelled as rounding to the nearest hundredth with halves up, on exact reals. Binary floating point is not modelled.
- JavaScript numbers are modelled as unbounded integers, so precision limits above 2^53 are not modelled.
- `Math.random()` consumes one draw per call. The model gives each iteration its own draw record, so the number of draws an iteration uses (four or five) is not modelled.
- `localeCompare` is modelled by code-point order. Locale collation is not modelled.
- The default `sort()` of `sectionNames` is modelled by code-point order. Its UTF-16 code-unit order differs for keys mixing characters above U+FFFF with characters from U+E000 to U+FFFF, and that difference is not modelled.
- `Object.keys` lists integer-like keys first; the order of the recorded keys is not modelled, since `sectionNames` is sorted afterwards.
- The JS sort is in place. The model sorts values with a stable insertion sort and proves the result sorted and a permutation. Which of several equal-key elements comes first is not claimed.
- `toLowerCase` is modelled as ASCII only. The white-space set of `trim` and `parseInt` is a fixed list of common characters.
- Seed.NormalizeType: keys inherited from `Object.prototype` are not modelled. For example, `"constructor"` would look up a function in the source.
- Dates are modelled as day numbers on the dashboard and as milliseconds in the app and the function. Time zones and `datetime` conversion are not modelled.
- Streamlit's caching (`st.cache_data`) is not modelled. With the fixed reseed it does not change the values.
- The radio's choice is a parameter. Its widget state is not modelled.
