# Generate PDF page: a verified model of its data pipeline

`GeneratePdf.tsx` is a React page that lets a user pick components of a
contract manufacturer (CMO), filter and tick rows, and export them as a PDF
table before handing off to an approval page. Under the markup it is a
small pipeline, and that pipeline is what this Dafny project models:

- the field catalog (22 row properties, their labels, their column widths) and the default field list;
- `transformApiResponse`, turning backend records into display rows;
- the SKU filter options (`extractUniqueSkus`, the navigation-state variant, and the master data's list);
- the client-side filter `filteredData` and the packaging-type lookup;
- the row selection (`allSelected`, `handleSelectAll`, `handleRowSelect`);
- the query string the page sends (`URLSearchParams` built from a filters object);
- the period pick of `fetchMasterData`;
- the retry decision of the three loaders;
- the export of `handleGeneratePDF`: selected rows, sanitising, cell formatting, headers, body, widths and the summary line;
- the page state, as a class whose methods are the handlers and the load callbacks.

JavaScript values are the datatype `JsValues.Value` (`Null | Str | Num | Bool | Obj`).
`Null` stands for both `null` and `undefined`, numbers are integers, and an
object carries only the text `JSON.stringify` would give it. A display row
is a synthetic string id plus a map from the enumeration `RowProps.Prop` to
values. `Prop.Undefined` is the property name `"undefined"`, which is what
`row[componentFieldValues[label]]` reads for a label outside the catalog.

Modules, in pipeline order:

| file | module | what |
|---|---|---|
| wrappers.dfy | `Wrappers` | `Option` |
| values.dfy | `JsValues` | values, truthiness, `String(v)`, `parseInt`, `isNaN`, truncation, `includes` |
| literals.dfy | `ObjectLiterals` | object literals as entry lists and the maps they denote |
| props.dfy | `RowProps` | the 45 row property names |
| fields.dfy | `FieldCatalog` | label/key tables, widths, default fields |
| rows.dfy | `DisplayRows` | display rows and `transformApiResponse` |
| seqs.dfy | `Seqs` | `Array.prototype.filter` and what it keeps |
| filter.dfy | `ClientFilter` | the filter criteria and `filteredData` |
| selection.dfy | `Selection` | the row selection |
| skus.dfy | `SkuOptions` | SKU options, de-duplicated by code |
| query.dfy | `QueryParams` | the filters object and its query string |
| periods.dfy | `Periods` | processing and sorting the master data's periods |
| retry.dfy | `RetryPolicy` | the retry decision of the three loaders |
| export.dfy | `PdfExport` | `handleGeneratePDF` up to the table handed to the PDF library |
| page.dfy | `GeneratePdfPage` | the page state and its handlers |

Details of the page's behaviour that the model follows as the code has them:

- `fetchFilteredComponents` waits `(r+1)*2` seconds and shows no notice; only the two other loaders wait `2^r*2` seconds.
- `fetchMasterData` retries only thrown errors, never a failure the server reports, and prefixes the message with "API Error: ".
- A master-data list missing from the response leaves the previous list in place; it is not emptied.
- The SKU filter control is commented out, so no SKU is ever chosen; Apply does not copy the SKU selection either, because that line is commented out too.
- An empty selection counts as "all selected" while rows are shown, so unticking "select all" leaves the box ticked.

## Model

| member | source | states |
|---|---|---|
| FieldCatalog.CatalogKeys | GeneratePdf.tsx:63-86 | the label table has 22 distinct keys, the catalog's properties in order |
| FieldCatalog.CatalogLabels | GeneratePdf.tsx:89-112 | the reverse table has 22 distinct labels and is the label table with each entry read backwards |
| FieldCatalog.FieldMapsSize | GeneratePdf.tsx:63-112 | both tables have exactly 22 entries; the label table's keys are the catalog properties |
| FieldCatalog.FieldMapsAreInverse | GeneratePdf.tsx:63-112 | `componentFieldLabels` and `componentFieldValues` are mutual inverses, in both directions |
| FieldCatalog.DefaultFieldsInCatalog | GeneratePdf.tsx:121-135 | the 13 default fields are distinct, within the limit of 15, and all in the catalog |
| FieldCatalog.WidthTableCoversCatalog | GeneratePdf.tsx:459-482 | the width table is keyed by exactly the catalog's labels |
| FieldCatalog.CatalogKeysAreRowData | GeneratePdf.tsx:63-86 | no catalog key is `undefined`, `cm_code` or `cm_description` |
| FieldCatalog.CatalogValueIsKey | GeneratePdf.tsx:89-112 | the reverse table leads every label to a catalog key |
| FieldCatalog.FieldKeyDefined | GeneratePdf.tsx:251-253 | `componentFieldValues[label]` is the name "undefined" exactly when the label is outside the catalog |
| FieldCatalog.FieldKeyNotCmo | GeneratePdf.tsx:439-440 | no applied field reads the CMO code or description of a row |
| FieldCatalog.WidthBounds | GeneratePdf.tsx:494 | every column width, the fallback 25 included, lies between 15 and 50 |
| ObjectLiterals.InverseTables | GeneratePdf.tsx:63-112 | two literals, each the other read backwards and with distinct keys, denote mutually inverse maps of equal size |
| JsValues.Ellipsize | GeneratePdf.tsx:380-385 | a text within the limit is kept; a longer one becomes its first n characters plus "...", n+3 in all |
| JsValues.NatToTextInjective | GeneratePdf.tsx:948 | distinct numbers have distinct decimal texts |
| JsValues.ParseIntOfIntToText | GeneratePdf.tsx:1061-1063 | `parseInt(String(i)) === i` for every integer |
| JsValues.ParseIntOfHex | GeneratePdf.tsx:1061-1063 | after a "0x" or "0X", with or without a '-' before it, `parseInt` reads the digits as hexadecimal |
| DisplayRows.RowIdInjective | GeneratePdf.tsx:948 | rows at different positions get different ids `api-<i+1>` |
| DisplayRows.TransformItemFields | GeneratePdf.tsx:954-1005 | a transformed row has the 45 row properties and no other, each holding what the transform writes |
| DisplayRows.TransformItemIsPackaging | GeneratePdf.tsx:1000 | `material_type` is always 'Packaging' |
| DisplayRows.TransformItemKind | GeneratePdf.tsx:951-956 | `type` is 'component' iff `component_code` is truthy and 'sku' otherwise; `component_code` is kept or becomes '-' |
| DisplayRows.TransformItemDefaults | GeneratePdf.tsx:958-961 | `skutype` defaults to 'external' and a falsy `sku_code` (0 and '' too) becomes '-' |
| DisplayRows.TransformItemTruthy | GeneratePdf.tsx:954-1005 | every property but `cm_code` and `cm_description` is truthy |
| DisplayRows.TransformApiResponse | GeneratePdf.tsx:945-1008 | one display row per backend record |
| DisplayRows.TransformRows | GeneratePdf.tsx:945-1006 | row i is made from record i with id `api-<i+1>`; ids are pairwise distinct and every row is typed |
| ClientFilter.FindPackaging | GeneratePdf.tsx:269-271 | the result is the first master-data entry whose `item_name` or `item_name_new` is the value, and none exactly when no entry names it |
| ClientFilter.Passes | GeneratePdf.tsx:245-295 | with no criteria applied (no fields, type, packaging types or SKUs, internal SKUs kept) every row passes |
| ClientFilter.FilteredData | GeneratePdf.tsx:245-298 | the shown rows are no more than the table's and each of them passes the filter |
| ClientFilter.FilteredDataSpec | GeneratePdf.tsx:245-295 | the shown rows are the rows that pass, in table order; no internal SKU survives while internal SKUs are excluded |
| ClientFilter.FalsyFieldsUnconstrained | GeneratePdf.tsx:259-287 | a falsy `material_type`, `component_packaging_type_id` or `sku_code` makes the verdict independent of that check's criteria |
| ClientFilter.FieldCheckOnTransformedRow | GeneratePdf.tsx:250-256 | on a transformed row the field check passes iff some applied label is in the catalog |
| ClientFilter.OtherComponentTypeHidesTransformedRows | GeneratePdf.tsx:259-262 | applying a component type other than 'Packaging' hides every transformed row |
| Selection.AllSelected | GeneratePdf.tsx:313 | the checkbox is on only when a row is shown, and it is on whenever a row is shown and nothing is ticked |
| Selection.SelectAll | GeneratePdf.tsx:314-320 | select-all gives exactly the shown ids in display order; unchecking gives none |
| Selection.RowSelect | GeneratePdf.tsx:322-324 | checking appends the id to the selection; unchecking leaves no occurrence of it and never grows the selection |
| Selection.RemoveIdSpec | GeneratePdf.tsx:323 | unchecking removes every occurrence of the id and keeps every other id, as often and in order |
| Selection.CheckThenUncheck | GeneratePdf.tsx:322-324 | checking appends without de-duplicating; checking then unchecking removes all occurrences and restores a selection that lacked the id |
| Selection.AllSelectedCases | GeneratePdf.tsx:313-320 | the checkbox is on after select-all (or none) iff a row is shown; unchecking a shown row while others stay ticked clears it |
| SkuOptions.UniqueSkus | GeneratePdf.tsx:1023-1038 | the `Map` never holds more options than there were records |
| SkuOptions.UniqueSkusCodes | GeneratePdf.tsx:1023-1036 | the option codes are distinct, no more than the records, and exactly the truthy codes the records carry |
| SkuOptions.UniqueSkusFromFirstOccurrences | GeneratePdf.tsx:1023-1036 | option j is made from the j-th record that carries its code first |
| SkuOptions.CollectUniqueSkus | GeneratePdf.tsx:1023-1038 | the `forEach` filling the `Map` yields the first-wins options |
| SkuOptions.ExtractUniqueSkus | GeneratePdf.tsx:1012-1041 | a non-array input gives `[]`; an array gives the first-wins options |
| SkuOptions.ExtractedOptions | GeneratePdf.tsx:1012-1041 | distinct codes in first-seen order, ids 1..n, each description the first record's 'SKU Description' or the code |
| SkuOptions.NavigationOptions | GeneratePdf.tsx:203-225 | one option per distinct truthy `sku_code` from its first entry, id `id` or position+1, a description that is never empty |
| SkuOptions.MasterSkuOptions | GeneratePdf.tsx:1108-1115 | one option per master-data SKU, in order and not de-duplicated, with that entry's `id`, `sku_code` and `sku_description` |
| QueryParams.ParamsOf | GeneratePdf.tsx:705-711 | a present value appends one parameter per text under its key; an absent, null or empty value appends nothing |
| QueryParams.AppendEntry | GeneratePdf.tsx:705-711 | the inner `forEach` appends exactly the entry's parameters after the existing ones |
| QueryParams.BuildQuery | GeneratePdf.tsx:703-713 | the loop over `Object.entries` builds the query of the whole filters object, entry by entry |
| QueryParams.ValuesOfParams | GeneratePdf.tsx:705-711 | under its own key an entry contributes its texts, under any other key nothing |
| QueryParams.QueryValuesOfAbsent | GeneratePdf.tsx:703-713 | a key the filters object lacks gets no parameter |
| QueryParams.QueryValuesOf | GeneratePdf.tsx:703-713 | with distinct keys, `getAll(key)` is the texts of that key's value in order, and nothing for an absent, null or empty value |
| QueryParams.InitialQuery | GeneratePdf.tsx:802-815 | the initial load sends `cm_code` (when non-empty), `period_id` (when set), `material_type=Packaging`, `exclude_internal=true` |
| QueryParams.ApplyQuery | GeneratePdf.tsx:665-672 | applying sends the CMO code, the period and component type when set, each packaging type, and `exclude_internal` |
| Periods.ProcessPeriod | GeneratePdf.tsx:1058-1066 | any entry other than a string or an object is dropped; a kept period has a truthy label, the string itself for a string entry, the object's `period` for an object entry whose `id` is truthy |
| Periods.ProcessObjectPeriod | GeneratePdf.tsx:1062-1063 | an object entry with a non-zero numeric id and a truthy label keeps both |
| Periods.ProcessTextPeriod | GeneratePdf.tsx:1060-1061 | a string of digits gets its value as id and itself as label |
| Periods.ProcessHexTextPeriod | GeneratePdf.tsx:1060-1061 | a string "0x" followed by hexadecimal digits gets their hexadecimal value as id and itself as label |
| Periods.ProcessPeriods | GeneratePdf.tsx:1058-1066 | processing never adds periods |
| Periods.ProcessPeriodsAppend | GeneratePdf.tsx:1058-1066 | processing works entry by entry, so the kept periods are in the entries' order |
| Periods.ProcessPeriodsMembers | GeneratePdf.tsx:1058-1066 | a period is kept exactly when some entry processes to it |
| Periods.SortByIdDesc | GeneratePdf.tsx:1070 | the sorted list holds the same periods, as often |
| Periods.SortByIdDescSpec | GeneratePdf.tsx:1070 | the sort orders ids largest first, keeps every period, and keeps equal ids in their original order |
| Periods.LatestFirst | GeneratePdf.tsx:1059-1071 | the periods the page keeps are sorted largest id first |
| Periods.CurrentPeriod | GeneratePdf.tsx:1074-1077 | there is a current period exactly when some period is kept, and its text is never empty |
| Periods.CurrentPeriodIsLargest | GeneratePdf.tsx:1074-1079 | a current period exists iff some entry survives, and it is the largest id |
| RetryPolicy.Delay | GeneratePdf.tsx:757-760 | every wait is a positive even number of seconds, at least 2 |
| RetryPolicy.Transient | GeneratePdf.tsx:1141-1150 | a failure `fetchMasterData` is told about is never transient; a transient failure's message text contains 'connection slots are reserved' |
| RetryPolicy.FailureMessage | GeneratePdf.tsx:763-785 | the error shown for a failure that is not retried ends with the failure's own non-empty message |
| RetryPolicy.Handled | GeneratePdf.tsx:879-881 | in the initial and filtered loads a truthy reported message that is a number, a boolean or a non-array object turns into the TypeError its `includes` call throws; every other failure is handled as it is |
| RetryPolicy.HandledKeepsTransient | GeneratePdf.tsx:879-881 | the failure handled in place of another is transient exactly when that one is |
| RetryPolicy.Decide | GeneratePdf.tsx:752-786 | retry iff the failure is transient and fewer than 3 retries were made; the delay is the loader's; only the filtered load shows no notice; otherwise give up with the attempt count or the handled failure |
| RetryPolicy.MasterReportedNeverRetried | GeneratePdf.tsx:1132-1137 | a failure `fetchMasterData` is told about is never retried and shows "API Error: " and the message |
| RetryPolicy.NonStringMessageThrows | GeneratePdf.tsx:879-917 | a truthy reported message that is a number, a boolean or a non-array object is never retried in the initial and filtered loads, and the page shows the TypeError's message under the `catch` block's wording |
| RetryPolicy.DelaySchedules | GeneratePdf.tsx:760 | the delays are 2, 4, 6 s for filtered data and 2, 4, 8 s for the other two loads |
| RetryPolicy.ExponentialAtLeastLinear | GeneratePdf.tsx:883 | the exponential schedule never waits less than the linear one |
| RetryPolicy.AtMostFourAttempts | GeneratePdf.tsx:756 | however the failures go, a load is attempted at most four times |
| RetryPolicy.PersistentFailureFrom | GeneratePdf.tsx:881-892 | a pool that stays exhausted from attempt r+1 on is tried until 4 attempts, waiting the sum of the remaining delays |
| RetryPolicy.PersistentFailure | GeneratePdf.tsx:1150-1161 | a pool that stays exhausted is tried 4 times and ends with "Attempted 4", after 12 s (filtered) or 14 s of waiting |
| RetryPolicy.ExhaustedMessageCountsAttempts | GeneratePdf.tsx:891 | the final error ends with "(Attempted 4 times)" |
| PdfExport.Take | GeneratePdf.tsx:378 | `substring(0, n)` is a prefix of at most n characters, the whole text when short enough |
| PdfExport.SanitizeValue | GeneratePdf.tsx:372-388 | a sanitised value is never absent and never an object, and its text has at most 53 characters |
| PdfExport.SanitizeValueSpec | GeneratePdf.tsx:372-388 | absent becomes '-'; an object becomes its JSON, cut to 50 characters, plus '...'; a string over 50 characters becomes its first 50 plus '...'; numbers, booleans and short strings pass unchanged; sanitising a non-object twice changes nothing more |
| PdfExport.Sanitized | GeneratePdf.tsx:370-390 | the sanitised row keeps exactly the row's keys |
| PdfExport.SanitizedSpec | GeneratePdf.tsx:370-390 | a key the row has reads sanitised, one it lacks still reads undefined, and the id is cut like a string |
| PdfExport.SanitizeRow | GeneratePdf.tsx:370-391 | the key-by-key loop builds the sanitised row |
| PdfExport.FormatCellContent | GeneratePdf.tsx:408-425 | a cell is never empty |
| PdfExport.FormatCellContentSpec | GeneratePdf.tsx:408-425 | absent or '' shows '-'; a percentage cell shows its text plus '%'; anything else shows its text whole when it has at most 40 characters, and otherwise its first 40 characters plus '...' |
| PdfExport.FormatCellExamples | GeneratePdf.tsx:413-415 | 30 under a '%' label shows "30%", 0 shows "0", absent shows "-" |
| PdfExport.NumericTextUnderPercent | GeneratePdf.tsx:413-415 | a numeric text under a '%' label gets '%' appended |
| PdfExport.WordShownAsIs | GeneratePdf.tsx:418-424 | a short non-numeric text is shown as it is under any label |
| PdfExport.TextUnderPlainLabel | GeneratePdf.tsx:418-424 | a short text under a label without '%' is shown as it is |
| PdfExport.Headers | GeneratePdf.tsx:398-403 | one header per fixed column and applied field |
| PdfExport.FieldCells | GeneratePdf.tsx:437-443 | one cell per applied field, in order, each that field's formatted value |
| PdfExport.Cells | GeneratePdf.tsx:428-446 | one cell per header |
| PdfExport.RowCells | GeneratePdf.tsx:428-446 | the row builder's `push` loop builds the row's cells |
| PdfExport.CellUnderHeader | GeneratePdf.tsx:437-443 | the cell under applied field j's header is that field's property, formatted for that field |
| PdfExport.CellsNeverEmpty | GeneratePdf.tsx:428-446 | no cell of the table is empty |
| PdfExport.UnknownFieldShowsDash | GeneratePdf.tsx:439-441 | a label outside the catalog shows '-' on every transformed row |
| PdfExport.Widths | GeneratePdf.tsx:451-498 | one width per header |
| PdfExport.ColumnWidths | GeneratePdf.tsx:451-498 | `calculateColumnWidths` builds the width list |
| PdfExport.WidthsSpec | GeneratePdf.tsx:484-496 | 25, 35, 20, 30 first, then the table's width or 25 per field, all between 15 and 50 |
| PdfExport.SelectedData | GeneratePdf.tsx:358-360 | the exported rows are no more than the filtered rows and every one of them is ticked |
| PdfExport.SelectedDataSpec | GeneratePdf.tsx:358-360 | the exported rows are the ticked rows of the filtered data in its order, empty iff none is ticked |
| PdfExport.SummaryCounts | GeneratePdf.tsx:564-565 | on typed rows the SKU and component counts add up to the exported rows |
| PdfExport.Body | GeneratePdf.tsx:428-446 | one body row per exported row |
| PdfExport.Export | GeneratePdf.tsx:345-367 | the "no data" outcome exactly when nothing is ticked; an exported table has one body row per exported row, at least one |
| PdfExport.ExportSpec | GeneratePdf.tsx:345-367 | nothing ticked opens the dialog, no ticked row left alerts, otherwise a rectangular table of the ticked rows |
| PdfExport.GenerateReport | GeneratePdf.tsx:345-500 | the export step by step produces the specified outcome |
| GeneratePdfPage.Page.constructor | GeneratePdf.tsx:121-175 | the page mounts with default criteria, the 13 default fields, nothing loaded and nothing ticked |
| GeneratePdfPage.Page.SelectAll | GeneratePdf.tsx:314-320 | the selection becomes the shown ids or none, and the checkbox is on iff a row is shown |
| GeneratePdfPage.Page.RowSelect | GeneratePdf.tsx:322-324 | checking leaves the id ticked, unchecking leaves it unticked |
| GeneratePdfPage.Page.SelectFields | GeneratePdf.tsx:596-602 | more than 15 fields opens the limit dialog and keeps the fields; 15 or fewer replace them |
| GeneratePdfPage.Page.SetDraftComponentType | GeneratePdf.tsx:1298 | the component type select changes only the draft's type |
| GeneratePdfPage.Page.SetDraftPackagingTypes | GeneratePdf.tsx:1327 | the packaging type multi-select changes only the draft's packaging types |
| GeneratePdfPage.Page.SetDraftExcludeInternal | GeneratePdf.tsx:1372 | the checkbox changes only the draft's exclude-internal flag |
| GeneratePdfPage.Page.CloseNoDataModal | GeneratePdf.tsx:605-607 | the no-data dialog is closed |
| GeneratePdfPage.Page.CloseMaxSelectionModal | GeneratePdf.tsx:609-611 | the limit dialog is closed |
| GeneratePdfPage.Page.Reset | GeneratePdf.tsx:614-640 | both criteria back to the defaults, fields and SKUs kept, table and selection empty, the initial query sent again |
| GeneratePdfPage.Page.Apply | GeneratePdf.tsx:643-682 | the draft becomes the applied criteria except the SKUs, and the draft's query is sent |
| GeneratePdfPage.Page.BeginLoad | GeneratePdf.tsx:794-796 | every attempt of a load, a retry included, starts with the error line cleared |
| GeneratePdfPage.Page.OnInitialDataLoaded | GeneratePdf.tsx:828-870 | table and SKU options rebuilt, default fields if none, every row ticked, applied criteria record the defaults, every shown row exported |
| GeneratePdfPage.Page.OnFilteredDataLoaded | GeneratePdf.tsx:730-739 | table and SKU options rebuilt, nothing else changes |
| GeneratePdfPage.Page.OnMasterDataLoaded | GeneratePdf.tsx:1056-1118 | each list present is replaced; the most recent period becomes current, chosen and applied; a reload follows iff the current period changed to a non-empty one |
| GeneratePdfPage.Page.SetLists | GeneratePdf.tsx:1093-1115 | a packaging-type or SKU list present in the response replaces the old one; a missing one leaves it |
| GeneratePdfPage.Page.SetPeriods | GeneratePdf.tsx:1058-1081 | the periods are kept latest first and the first becomes the current, draft and applied period |
| GeneratePdfPage.Page.OnLoadFailed | GeneratePdf.tsx:874-918 | the error line shows the retry notice or the final error; an initial load given up in its `catch` block (a thrown error, or the TypeError of a non-string message) clears the SKU options |
| GeneratePdfPage.RetriedInitialLoad | GeneratePdf.tsx:902-909 | a transient failure, its retry and that retry's success leave no error shown and the table built from the records |
| GeneratePdfPage.Page.OnNavigationSkus | GeneratePdf.tsx:203-229 | an array in the navigation state replaces the SKU options by its de-duplication |
| GeneratePdfPage.Page.GeneratePdf | GeneratePdf.tsx:345-350 | the export of the shown rows; the no-data dialog opens when nothing is ticked |
| GeneratePdfPage.TableSelectionCoversDisplay | GeneratePdf.tsx:860-863 | ticking every table row ticks every shown row, so the checkbox is on iff a row is shown and the export takes every shown row |

## Left out

- JSX rendering, inline CSS and the dropdown option lists (`componentTypes`, `componentBaseUoms`) are user interface only.
- `apiGet`, `setTimeout` scheduling, the loading flag, `useEffect` wiring and overlapping in-flight requests are input/output and asynchrony. A load is split into the handler that returns its query and an `On...` callback that takes the response. `OnMasterDataLoaded` returns whether the initial load would follow.
- The jsPDF/autoTable drawing is a foreign library; the model stops at the headers, body, widths and text lines handed to it. The generation timestamp is a clock reading.
- `formatDate` is not modelled: a truthy date is kept as its text and a falsy one becomes '-'.
- `navigate(...)` and the approval page's state are routing; the export returns the selected rows it would pass on.
- `console.log` calls are logging.
- `getAvailableColumns` is never used by the pipeline.
- JsValues.Value: `null` and `undefined` are one value, so `isNaN(undefined)` is not distinguished from `isNaN(null)`. Numbers are integers, so NaN, fractions and floating-point text are not modelled. Objects are compared by their JSON text, not by reference. Arrays are objects here (`Obj`): an array's own `includes` and `String(array)`, its comma-joined elements, are not modelled. So RetryPolicy.Handled and RetryPolicy.NonStringMessageThrows hold for non-array objects only: for an array `response.message` the page tests its elements, shows the joined text and keeps the SKU options.
- JsValues.NotNaN: accepts, around the numeral, the white space JsValues.IsSpace lists (tab, line feed, vertical tab, form feed, carriage return, space, U+00A0, U+1680, U+2000 to U+200A, U+2028, U+2029, U+202F, U+205F, U+3000, U+FEFF); the numeral is an optional sign and decimal digits with at most one point. It does not model the exponent, hexadecimal or `Infinity` forms of `Number(s)`.
- RetryPolicy.Handled: a thrown value whose `message` is truthy but not a string makes `error.message.includes(...)` throw inside the `catch` block of `loadInitialData` and `fetchFilteredComponents`, so that attempt ends with a rejected promise and no error line. The model words such a failure like any other thrown error. A thrown `Error` always has a string message.
- JsValues.Contains: compares characters, not UTF-16 code units, and applies no Unicode normalisation.
- JsValues.Ellipsize, PdfExport.Take, PdfExport.SanitizeValue, PdfExport.FormatCellContent: a string's length is its number of Unicode scalar values, while the page's `length` and `substring` count UTF-16 code units. A text with characters outside the Basic Multilingual Plane (emoji, for instance) is therefore cut later in the model than on the page. A cut that splits a surrogate pair cannot be expressed on Dafny strings.
- Periods.ProcessPeriod: reads ids with JsValues.ParseInt, which covers the decimal and the "0x" hexadecimal forms of `parseInt`. It drops an entry whose id does not parse. The page keeps it with a NaN id, and NaN ids sort in an engine-defined order.
- QueryParams.BuildQuery: gives the parameter list; the percent-encoding of `toString()` is not modelled.
- SkuOptions.ExtractUniqueSkus: `Option` stands for "an array or not"; a non-array `response.data` in the success path of the component loads is not modelled beyond that.
- Records are maps from string keys; inherited (prototype) properties are not modelled.
- An exception thrown inside the export, and its alert, are not modelled; the `NothingToExport` outcome stands for the alert shown when no ticked row is left.
