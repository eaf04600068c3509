# Finance tracker: export, pages, currency helpers and seed utility

A Dafny model of the core of a PKR-denominated finance tracker (a Convex backend with a
React client). It covers:

- **The cross-module export query** `getExportData` (module `Export`). It reads the chosen
  modules' tables and date-filters sales, expenses, cash flow (by `date`) and salaries (by
  `month`). It then computes twelve totals and reshapes every record into the export schema.
- **The export dialog** (module `ExportDialog`): the module checklist, the query arguments it
  builds, and `generateExcel`. That function writes a summary sheet and then one sheet per
  selected module, in a fixed order, into a workbook (module `Spreadsheet`, a class whose
  sheet list is appended to).
- **The expenses and business-in-hand pages** (modules `ExpensesPage`, `BusinessInHandPage`):
  their one-sheet Excel exporters, the export guards, the badge labels, and the form state
  behind the add/edit dialogs. The form state is a class whose fields the handlers update.
- **The PKR currency helpers** (module `CurrencyUtils`): formatting, parsing and the currency
  table.
- **The administrative seed utility** (module `SeedData`, with the literal catalogue in
  `SeedCatalog`). It covers marking and reading the seeding session, removing sample records
  by description patterns and by session window, clearing all tables, and seeding the 55
  catalogue records. The store is a `Database` class whose tables are changed one insert,
  patch or delete at a time. A query or mutation that throws is named by a fault parameter,
  and the surrounding `try` then skips the rest of its block, as the source does.

Library calls are parameters of the model:

- `toLocaleString`, `parseFloat`, `toFixed`, date-fns `format`;
- the clock: `Date.now`, `new Date().toISOString()`;
- the derivations that the sale and liability create mutations perform.

JavaScript's string `<`, `includes`, `replace(/[:.]/g, "-")`, `split('T')[0]` and integer
rendering are defined in module `Text`. `Text.Less` compares characters as Unicode scalar values,
where JavaScript compares UTF-16 code units. The two orders differ only for characters beyond
U+FFFF, and the compared strings are ISO dates. The array pipelines `filter`, `reduce` and `map` are
defined in `Seqs`.

Consequences of the code as written that the proofs make explicit:

- Salaries are filtered by a `YYYY-MM` month against `YYYY-MM-DD` bounds. So a salary of the
  start date's own month is always dropped, and one of the end date's month always kept
  (`Export.SalaryMonthWindow`, `Export.StartMonthSalariesDropped`).
- The liability totals and the business-in-hand value ignore the date range
  (`Export.TotalsReadTheirLists`, `Export.UndatedModulesIgnoreDateRange`).
- The dialog sends no date range unless both inputs are filled (`ExportDialog.QueryArgs`).

## Model

| member | source | states |
|---|---|---|
| Export.FilterByDate | convex/export.ts:124-134 | Exactly the items whose date field passes the range are kept (membership in both directions); with no range, or when every item passes, the list comes back unchanged |
| Export.InRangeMeansBetween | convex/export.ts:128-133 | The per-item test is the inclusive window startDate <= date <= endDate in JavaScript string order, each bound applying only when it is not empty |
| Export.EmptyBoundsFilterNothing | convex/export.ts:125-128 | The early return for a range with two empty bounds agrees with the filter it skips |
| Export.FilterByDateAppend | convex/export.ts:128-133 | Date filtering keeps order: it commutes with concatenation |
| Export.SalaryMonthWindow | convex/export.ts:128-139 | For ISO bounds, a salary month passes exactly when it is after the start date's month and not after the end date's month |
| Export.StartMonthSalariesDropped | convex/export.ts:139 | A salary whose month is the start date's month never survives the salary filter |
| Export.ExcludedModulesAreEmpty | convex/export.ts:106-164 | A module not in the list (or not in the default list) yields an empty array and zero for every total drawn only from it |
| Export.NoArgumentsExportEverything | convex/export.ts:106-239 | Without arguments every table is exported in full, unfiltered, each record reshaped by its row function |
| Export.TotalsReadTheirLists | convex/export.ts:137-164 | Sales, expense, salary and cash-flow totals sum the date-filtered tables of chosen modules; liability totals and business-in-hand value sum the chosen tables unfiltered, the latter skipping "received" |
| Export.DatedArraysAreFiltered | convex/export.ts:112-211 | A sale, expense or cash-flow entry is exported exactly when its module is chosen and its date is admitted; salaries are the filtered salaries reshaped in order |
| Export.UndatedModulesIgnoreDateRange | convex/export.ts:137-239 | Two calls differing only in the date range agree on the liability, bank PDC, business-in-hand and future-needs arrays and on their totals |
| Export.UndatedModulesKeepLengthAndOrder | convex/export.ts:193-239 | Each undated array of a chosen module has the stored table's length, with the i-th row built from the i-th record |
| Export.PendingSalariesAreTheUnpaid | convex/export.ts:148-152 | The pending total is the net salary of every exported salary whose status is not "paid" |
| Export.InflowsMinusOutflows | convex/export.ts:154-159 | Inflows minus outflows equals the signed sum over the entries (in for inflow, out for outflow, nothing otherwise) |
| Export.NetCashflowIsSignedSum | convex/export.ts:154-159 | The exported net cash flow is the signed sum of the exported cash-flow entries |
| Export.OtherCashflowKindsCountNowhere | convex/export.ts:154-159 | Adding an entry that is neither an inflow nor an outflow changes no total |
| Export.TotalsIgnoreRecordOrder | convex/export.ts:142-164 | Stores holding the same records in any order give the same twelve totals |
| Export.LiabilityRowOf | convex/export.ts:193-200 | The description falls back on the lender when it is missing or empty; amounts, creditor and due date are copied; status is always "active" |
| Export.SalaryRowOf | convex/export.ts:201-210 | Basic salary plus allowances minus deductions is the net salary; allowances and deductions are zero; employee name, month and payment status are copied; a missing payment date becomes "" |
| Export.BusinessInHandRowOf | convex/export.ts:225-232 | Amount, status and expected date are copied; the description is repeated as PO number exactly for "po_in_hand" and as supplier exactly for "pending_invoice", never both |
| Export.FutureNeedRowOf | convex/export.ts:233-239 | The exported amount is unit amount times quantity, the type is the status, the category is empty; description and month are copied |
| Export.GetExportData | convex/export.ts:105-257 | The summary echoes the range and currency "PKR"; its export date is the timestamp's part before the first "T", which is followed by "T" unless it is the whole timestamp; net cash flow and pending salaries are the stated differences |
| Export.Load | convex/export.ts:112-121 | A chosen module's table is read whole; an unchosen one reads as empty |
| Export.Selected | convex/export.ts:106-121 | Each of the eight tables is the stored one when its module is chosen and empty otherwise |
| Export.ComputeTotals | convex/export.ts:142-164 | Pending salaries are the total minus the paid; net cash flow is inflows minus outflows |
| Export.BankPdcRowOf | convex/export.ts:218-224 | The bank becomes the bank name, the code the supplier code, the date the due date; amount and status are copied |
| Export.Reshape | convex/export.ts:173-240 | Sales, expenses and cash flow pass through as given; every other module keeps its length, row i built from record i by its row function |
| ExportDialog.ModuleIds | client/src/components/export-dialog.tsx:33-48 | The checklist's ids are the query's default module list, in the same order |
| ExportDialog.Toggle | client/src/components/export-dialog.tsx:63-69 | The toggled id flips membership, every other id keeps it; an absent id is appended at the end |
| ExportDialog.ToggleTwice | client/src/components/export-dialog.tsx:63-69 | Toggling twice restores the selected set; exactly restores an absent id's list, and moves a present id to the end |
| ExportDialog.QueryArgs | client/src/components/export-dialog.tsx:55-61 | A range is sent exactly when both dates are filled; the modules are the selection, or all modules when it is empty |
| ExportDialog.DialogQueryDefaults | client/src/components/export-dialog.tsx:55-61 | A half-filled range filters nothing and an empty selection exports what a call without arguments exports |
| ExportDialog.SummaryRows | client/src/components/export-dialog.tsx:78-99 | Seventeen rows: the six head rows, then the eleven totals rows |
| ExportDialog.SummaryHead | client/src/components/export-dialog.tsx:78-87 | The title row, "Export Date", "Currency" and "Date Range" each with its summary value, a blank row, then "Financial Totals" |
| ExportDialog.TotalRows | client/src/components/export-dialog.tsx:88-98 | Row i is the i-th of the eleven labels, from "Total Sales" to "Net Cash Flow", beside the matching total formatted as rupees |
| ExportDialog.SummaryAmountsCarrySymbol | client/src/components/export-dialog.tsx:88-98 | Every amount cell of the summary is a string starting with the rupee sign |
| ExportDialog.DateRangeRow | client/src/components/export-dialog.tsx:82-85 | The range row says "All Data" exactly when no range was echoed, and otherwise starts with the start date and ends with the end date |
| ExportDialog.ModuleTables | client/src/components/export-dialog.tsx:104-225 | The eight module tables are rectangular; each is its module's header followed by one row per exported record, row i+1 built from record i by that module's cell builder |
| ExportDialog.SaleColumns | client/src/components/export-dialog.tsx:104-120 | Under "Date" to "Gross Profit (PKR)" a sales row holds the date, description, cost, selling price and gross profit; the row is as wide as the header |
| ExportDialog.SaleMarginColumns | client/src/components/export-dialog.tsx:104-120 | Under the two margin headings the margins written by `toFixed(2)`; under "Expenses (PKR)" and "Net Profit (PKR)" those amounts |
| ExportDialog.ExpenseColumns | client/src/components/export-dialog.tsx:123-135 | Each heading of the expenses header sits above its field: date, description, amount, category, vendor, status |
| ExportDialog.LiabilityColumns | client/src/components/export-dialog.tsx:138-150 | Each heading of the liabilities header sits above its field, the outstanding balance under "Outstanding Balance" |
| ExportDialog.SalaryColumns | client/src/components/export-dialog.tsx:153-168 | Name, month, basic salary and allowances sit under their headings; the row is as wide as the header |
| ExportDialog.SalaryPaymentColumns | client/src/components/export-dialog.tsx:153-168 | Deductions, net salary, payment status and payment date sit under their headings |
| ExportDialog.CashflowColumns | client/src/components/export-dialog.tsx:171-182 | Each heading of the cash-flow header sits above its field, the entry's type under "Type" |
| ExportDialog.BankPdcColumns | client/src/components/export-dialog.tsx:185-196 | Each heading of the bank PDC header sits above its field |
| ExportDialog.BusinessInHandColumns | client/src/components/export-dialog.tsx:199-211 | Each heading of the business-in-hand header sits above its field, the PO number and supplier first |
| ExportDialog.FutureNeedColumns | client/src/components/export-dialog.tsx:214-225 | Each heading of the future-needs header sits above its field, the total amount under "Total Amount (PKR)" |
| ExportDialog.AppendedNames | client/src/components/export-dialog.tsx:101-226 | After k steps of the if-chain the sheet names are "Summary" followed by the selected titles among the first k |
| ExportDialog.SheetOrder | client/src/components/export-dialog.tsx:101-226 | The workbook's sheet names are "Summary" then the titles of exactly the selected modules, in the fixed chain order |
| ExportDialog.ModuleSheetsAreTables | client/src/components/export-dialog.tsx:101-226 | The first sheet is the summary; every later one is a selected module's rectangular table under that module's title |
| ExportDialog.AppendIfSelected | client/src/components/export-dialog.tsx:104-121 | One if of the chain appends the module's sheet exactly when the module is selected |
| ExportDialog.GenerateExcel | client/src/components/export-dialog.tsx:71-235 | No data gives no file; otherwise the workbook of the summary and selected module sheets under the stamped file name |
| ExportDialog.DialogState.constructor | client/src/components/export-dialog.tsx:45-53 | Closed, Excel format, the default modules (all when none are given), empty dates |
| ExportDialog.DialogState.HandleModuleToggle | client/src/components/export-dialog.tsx:63-69 | The selection becomes its toggle; nothing else changes |
| ExportDialog.DialogState.SetStartDate | client/src/components/export-dialog.tsx:311 | Only the start date changes |
| ExportDialog.DialogState.SetEndDate | client/src/components/export-dialog.tsx:320 | Only the end date changes |
| ExportDialog.DialogState.SetExportFormat | client/src/components/export-dialog.tsx:274 | Only the format changes |
| ExportDialog.DialogState.HandleExport | client/src/components/export-dialog.tsx:237-252 | Both formats write the same Excel workbook and close the dialog; without data nothing is written and the dialog stays as it was |
| ExportDialog.DialogState.EnabledExportWritesModuleSheet | client/src/components/export-dialog.tsx:383-386 | An enabled button has data to export; with checklist ids checked, the workbook holds the summary and at least one module sheet |
| Spreadsheet.Table | client/src/components/export-dialog.tsx:105-119 | A header row followed by one row per record, in record order |
| Spreadsheet.TableIsRectangular | client/src/components/export-dialog.tsx:105-119 | When every record row is as wide as the header, so is every row of the table |
| Spreadsheet.CellUnder | client/src/components/export-dialog.tsx:104-225 | A cell found under a heading is the row's cell in a column carrying that heading |
| Spreadsheet.CellUnderAt | client/src/components/export-dialog.tsx:104-225 | Under distinct headings, the cell under column i's heading is the row's i-th cell |
| Spreadsheet.StampedFileName | client/src/components/export-dialog.tsx:229-230 | Prefix, then the timestamp with every colon and point turned into a dash and every other character kept, then ".xlsx" |
| Spreadsheet.Workbook.constructor | client/src/components/export-dialog.tsx:75 | A new workbook has no sheets |
| Spreadsheet.Workbook.AppendSheet | client/src/components/export-dialog.tsx:101 | The named sheet is appended after the existing ones |
| Text.ReplaceColonsAndDots | client/src/components/export-dialog.tsx:229 | Same length, no colon or point left, every other character in place |
| Text.ReplaceColonsAndDotsIdempotent | client/src/components/export-dialog.tsx:229 | Replacing a second time changes nothing |
| Text.BeforeFirst | convex/export.ts:169 | A prefix of the input without the separator, followed in the input by the separator unless it is all of it |
| Text.LessIrreflexive | convex/export.ts:130-131 | No string sorts before itself |
| Text.LessAsymmetric | convex/export.ts:130-131 | Two strings never sort before each other |
| Text.LessTransitive | convex/export.ts:130-131 | The string order is transitive |
| Text.LessTotal | convex/export.ts:130-131 | Of two different strings one sorts before the other |
| Text.ProperPrefixIsLess | convex/export.ts:130-131 | A proper prefix sorts before the longer string |
| Text.ContainsIff | convex/seedData.ts:49-54 | `includes` holds exactly when the pattern occurs at some index |
| Text.ContainsAnyIff | convex/seedData.ts:49-54 | A chain of `includes` tests joined by `or` holds exactly when one of the patterns is contained |
| Text.NatToString | convex/seedData.ts:542 | Non-empty decimal digits without a leading zero |
| Text.NatToStringRoundTrip | convex/seedData.ts:542 | Reading the rendered digits back gives the number |
| Records.OrElse | convex/export.ts:194 | The JavaScript fallback on an optional string: the string when present and non-empty, the fallback otherwise |
| CurrencyUtils.FormatCurrency | client/src/lib/currency-utils.ts:16-44 | Without the symbol the localized amount alone; by default the rupee sign, one space, then the localized amount |
| CurrencyUtils.NonNumbersFormatAsZero | client/src/lib/currency-utils.ts:31-32 | A missing or NaN amount formats exactly as 0 |
| CurrencyUtils.DefaultOptions | client/src/lib/currency-utils.ts:25-29 | Omitted options mean two fraction digits each way and the symbol shown |
| CurrencyUtils.NumericPart | client/src/lib/currency-utils.ts:57-58 | Only digits, points and minus signs remain, each with its original count |
| CurrencyUtils.NumericPartAppend | client/src/lib/currency-utils.ts:58 | The stripping works piece by piece, so kept characters stay in order |
| CurrencyUtils.NumericPartIdempotent | client/src/lib/currency-utils.ts:58 | A string of numeric characters is left as it is; stripping twice is stripping once |
| CurrencyUtils.ParseCurrencyString | client/src/lib/currency-utils.ts:56-60 | The number `parseFloat` reads from the stripped string when it reads one, and 0 exactly when it reads none |
| CurrencyUtils.ParseIgnoresSymbol | client/src/lib/currency-utils.ts:39-60 | A formatted amount parses the same with and without its symbol |
| CurrencyUtils.IsValidCurrency | client/src/lib/currency-utils.ts:65-67 | Valid exactly for the supported codes, which have a symbol and a name |
| CurrencyUtils.GetSupportedCurrencies | client/src/lib/currency-utils.ts:72-74 | One currency, which has a symbol |
| CurrencyUtils.GetCurrencySymbol | client/src/lib/currency-utils.ts:49-51 | The PKR symbol, which starts every default-formatted amount |
| ExpensesPage.ExportExpensesToExcel | client/src/pages/expenses.tsx:19-55 | A file exactly when xlsx loads and every date formats: one "Expenses" sheet, its header, one row per expense in the header's order, stamped "expenses-data-" name |
| ExpensesPage.HandleExport | client/src/pages/expenses.tsx:139-146 | The exporter runs only for a loaded non-empty list, so a written file has at least one data row |
| ExpensesPage.ExportButtonMatchesHandler | client/src/pages/expenses.tsx:139-146 | `ExportButtonEnabled`, the test of line 336, holds exactly when the handler would export; a disabled button's handler writes nothing |
| ExpensesPage.InitialForm | client/src/pages/expenses.tsx:66-73 | The date is the load time's part before the first "T" (followed there by "T" unless it is all of it); empty text fields, amount 0, status "unpaid" |
| ExpensesPage.EditFormRoundTrip | client/src/pages/expenses.tsx:114-125 | The edit form carries every expense field: expense to form to expense, and form to expense to form, are identities |
| ExpensesPage.PageState.constructor | client/src/pages/expenses.tsx:76-78 | Dialog closed, nothing edited, the initial form |
| ExpensesPage.PageState.HandleEdit | client/src/pages/expenses.tsx:114-125 | Edits the given expense with its six fields in the form, dialog open |
| ExpensesPage.PageState.HandleAddNew | client/src/pages/expenses.tsx:148-152 | Nothing edited, initial form, dialog open |
| ExpensesPage.PageState.SetAmountInput | client/src/pages/expenses.tsx:231 | Only the amount changes, to the parsed value or 0 |
| ExpensesPage.PageState.HandleSubmit | client/src/pages/expenses.tsx:90-112 | Update of the edited expense or a creation, with the whole form; success closes and resets, failure changes nothing |
| BusinessInHandPage.ExportBusinessInHandToExcel | client/src/pages/business-in-hand.tsx:18-54 | A file exactly when xlsx loads and every expected date formats: one "Business in Hand" sheet, header, one row per record, stamped name |
| BusinessInHandPage.CurrencyColumn | client/src/pages/business-in-hand.tsx:31 | The currency column is the record's currency when set and "PKR" otherwise |
| BusinessInHandPage.HandleExport | client/src/pages/business-in-hand.tsx:136-143 | The exporter runs only for a loaded non-empty list |
| BusinessInHandPage.TypeLabel | client/src/pages/business-in-hand.tsx:158-168 | A label exactly for the three known types |
| BusinessInHandPage.TypeLabelTexts | client/src/pages/business-in-hand.tsx:159-163 | The three labels read "PO in Hand", "Pending Invoice" and "Expected Revenue"; any other type has none |
| BusinessInHandPage.TypeLabelsDistinct | client/src/pages/business-in-hand.tsx:159-163 | Different types never share a label |
| BusinessInHandPage.Capitalize | client/src/pages/business-in-hand.tsx:186 | Same length; the first character upper-cased, the rest unchanged |
| BusinessInHandPage.CapitalizeIdempotent | client/src/pages/business-in-hand.tsx:186 | Capitalizing twice is capitalizing once |
| BusinessInHandPage.StatusBadge | client/src/pages/business-in-hand.tsx:173-188 | A badge exactly for the three configured statuses, showing the capitalized status |
| BusinessInHandPage.StatusBadgeTexts | client/src/pages/business-in-hand.tsx:174-186 | The three badges read "Pending", "Confirmed" and "Received" |
| BusinessInHandPage.FormOf | client/src/pages/business-in-hand.tsx:115-121 | The form holds the record's type, description, amount, expected date and status |
| BusinessInHandPage.EditFormKeepsAllButCurrency | client/src/pages/business-in-hand.tsx:113-123 | Two records give the same edit form exactly when they differ at most in currency |
| BusinessInHandPage.PageState.constructor | client/src/pages/business-in-hand.tsx:73-75 | Dialog closed, nothing edited, the initial form |
| BusinessInHandPage.PageState.HandleEdit | client/src/pages/business-in-hand.tsx:113-123 | Edits the given record with its five form fields, dialog open |
| BusinessInHandPage.PageState.HandleAddNew | client/src/pages/business-in-hand.tsx:205-210 | Nothing edited, initial form, dialog opened by the trigger |
| BusinessInHandPage.PageState.SetAmountInput | client/src/pages/business-in-hand.tsx:268 | Only the amount changes, to the parsed value or 0 |
| BusinessInHandPage.PageState.HandleSubmit | client/src/pages/business-in-hand.tsx:86-111 | Update of the edited record or a creation, with the form; success closes and resets, failure changes nothing |
| SeedData.FirstActive | convex/seedData.ts:16-19 | The index of the earliest active session, or none exactly when no session is active |
| SeedData.ActiveSession | convex/seedData.ts:249-254 | An active stored session, or none exactly when no session is active |
| SeedData.Database.GetActiveSeedingSession | convex/seedData.ts:238-255 | The earliest active session of the store |
| SeedData.MarkedSessions | convex/seedData.ts:16-31 | With an active session, only the first active one changes: same id and creation time, new start time, still active. Otherwise one session is appended: the new id, created now, with the start time, active |
| SeedData.MarkedSessionIsActive | convex/seedData.ts:16-31 | After marking, the active session carries the new start time |
| SeedData.MarkedSessionsKeepOneActive | convex/seedData.ts:16-31 | Marking keeps at most one session active |
| SeedData.Database.MarkSeedingSession | convex/seedData.ts:8-35 | The sessions become the marked sessions, the tables are untouched, a new id is used only for an insert |
| SeedData.Deactivated | convex/seedData.ts:264 | Sessions with the id become inactive, all others are unchanged |
| SeedData.DeactivatedChangesOne | convex/seedData.ts:264 | With unique ids exactly one session changes |
| SeedData.Database.MarkSeedingSessionInactive | convex/seedData.ts:258-267 | The sessions become the deactivated sessions; the tables are untouched |
| SeedData.DeactivatingTheActiveSession | convex/seedData.ts:220-228 | With at most one active session, deactivating it leaves none active |
| SeedData.WithoutIds | convex/seedData.ts:57-60 | A document survives exactly when it was there and its id was not deleted |
| SeedData.WithoutIdsAppend | convex/seedData.ts:57-60 | Deleting works piece by piece over a concatenation, so survivors keep their order |
| SeedData.WithoutIdsTwice | convex/seedData.ts:57-60 | Deleting in two rounds is deleting the union |
| SeedData.DeleteStep | convex/seedData.ts:57-60 | Each delete of the loop removes exactly one more document and keeps ids unique |
| SeedData.Database.DeleteDoc | convex/seedData.ts:58 | One document is deleted from one table; nothing else changes |
| SeedData.Database.DeleteEach | convex/seedData.ts:57-60 | Deletes run in order until one throws; the count is the number that succeeded and exactly those documents are gone |
| SeedData.Database.RemoveWhere | convex/seedData.ts:47-64 | Only samples leave the table and all non-samples stay; when the read succeeds and no sample's delete throws, no sample is left |
| SeedData.Database.RemoveModule | convex/seedData.ts:46-179 | One removal block advances the removal's progress by its table; the count is the number of documents removed |
| SeedData.Database.RemoveSeededData | convex/seedData.ts:38-235 | Only samples are removed and every non-sample stays; each table whose read succeeds and whose samples all delete (and, for cash flow, whose session query succeeds) is left with no sample; the count is the drop in size; the active session is deactivated |
| SeedData.UndescribedLiabilitiesKept | convex/seedData.ts:89-94 | A liability without a non-empty description is never removed |
| SeedData.IsSampleRecord | convex/seedData.ts:49-174 | A record matches only the block of its own kind, never the cash-flow block, and a liability only with a present, non-empty description |
| SeedData.CashflowSelection | convex/seedData.ts:182-203 | With an active session exactly the entries created in its window; without one exactly the entries outside "manual" or whose description has one of the six words at some position |
| SeedData.SeededRecordsAreSelected | convex/seedData.ts:414-536 | When the create mutations keep descriptions, every record seeded from a catalogue is selected by that catalogue's patterns |
| SeedData.SourcePatternsMissSeededSale | convex/seedData.ts:49-55 | With the patterns as written, the seeded sale "AI Chatbot System" is not selected |
| SeedData.CatalogPatternsCoverSeeds | convex/seedData.ts:414-536 | With a catalogue's own descriptions as patterns, every record seeded from it is selected (liabilities when described) |
| SeedData.SampleLiabilitiesDescribed | convex/seedData.ts:461-468 | Every catalogue liability has a description, so all of them are selected |
| SeedData.Database.ClearTable | convex/seedData.ts:279-288 | Documents only go away; when the read and every delete succeed the table is emptied and the block adds its old size, otherwise it adds 0 |
| SeedData.Database.ClearModule | convex/seedData.ts:278-372 | One clearing block, in its place among the eight, advances the clearing's progress by its table and adds the table's old size if its block ran to its end, else 0 |
| SeedData.Database.ClearAllData | convex/seedData.ts:270-376 | Documents only go away; the total is the sum of the old sizes of exactly the tables whose read and deletes all succeeded, and never exceeds what was removed; each such table is emptied, and without any fault the total is the old size |
| SeedData.ClearedTotal | convex/seedData.ts:276-372 | The clearing total is at most the number of stored documents, and all of them when every block runs to its end |
| SeedData.ClearedTotalBound | convex/seedData.ts:278-372 | After all eight blocks, the total is at most what went away and every table whose block ran to its end is empty |
| SeedData.InsertedCount | convex/seedData.ts:432-435 | At most the whole list is inserted, and all of it exactly when no insert fails |
| SeedData.Database.Insert | convex/seedData.ts:434 | One document with a fresh id is appended to one table |
| SeedData.Database.InsertEach | convex/seedData.ts:432-435 | The records whose insert does not throw are appended in order and counted |
| SeedData.SeedRecords | convex/seedData.ts:414-536 | Each module's catalogue list becomes its records, one per item, in list order; nothing for cash flow |
| SeedData.Counts | convex/seedData.ts:405-551 | Each counter is at most its list's length, and equals it when no insert fails |
| SeedData.SampleCounts | convex/seedData.ts:414-551 | At most 14, 13, 5, 6, 5, 6 and 6 records, and all 55 when no insert fails |
| SeedData.CountsInOrder | convex/seedData.ts:539-551 | The per-module counters in seeding order form the reported record counts |
| SeedData.Database.SeedModule | convex/seedData.ts:432-435 | One module's loop appends its inserted records and advances the seeding progress |
| SeedData.Database.SeedModules | convex/seedData.ts:405-536 | The seven blocks in order: every seeded table grew by its inserted records, and the counters match |
| SeedData.Database.SeedDatabase | convex/seedData.ts:379-554 | The session is marked; each seeded table grows by exactly its inserted catalogue records in order; cash flow is untouched; the counts and message match |
| SeedData.SeedMessage | convex/seedData.ts:539-542 | The fixed head, then decimal digits that read back as the total, then the fixed tail |
| SeedData.SeedMessageNamesTotal | convex/seedData.ts:542 | The digits between head and tail are decimal digits, and different totals give different messages |

## Left out

- Toasts, console logging, `confirm`/`alert` dialogs and React rendering: they have no effect on the modelled state.
- The xlsx library's file format: a saved file is its name and its sheets of cells.
- Locale formatting, `parseFloat`, `toFixed`, date-fns `format` and the clock are parameters. Amounts are integers; the two profit margins are reals that are only passed on.
- `BusinessInHandPage.Capitalize`: upper-cases ASCII letters only, which covers every status the page configures.
- The rupee sign: the source file stores the rupee sign as mis-encoded bytes; the model keeps the intended character U+20A8 as an opaque constant.
- `SeedData.Database.SeedDatabase`: the create mutations of other modules are not part of this model. Their derived fields are the `completeSale` and `completeLiability` parameters. Any cash-flow entries they add are not modelled, so the cash-flow table stays unchanged here.
- `SeedData.Database.SeedDatabase`: one clock reading serves as session start and as every insert's creation time.
- `SeedData.Database.SeedModules`: the seven identical seeding blocks are one loop over the fixed module order.
- `SeedData.Database.RemoveSeededData`: the cash-flow window ends at one clock reading `now`, where the source reads `Date.now()` per entry. The returned count is the value the source only logs. One fault flag covers both session queries and the deactivating patch.
- `SeedData.Database.ClearAllData`: the returned total is the value the source only logs; the handler returns nothing.
- `SeedData.SeededRecordsAreSelected`: the create mutations are not part of this model, so that they keep the description is a precondition.
- `SeedData.Database.MarkSeedingSessionInactive`: patching an id that is not stored throws in the source; here it changes nothing.
- Concurrency and atomicity between the actions' queries and mutations.
- The create, update and delete mutations of the modules, the pages' `handleDelete`, and the summary queries: they are outside this core.
- client/src/pages/index.tsx, client/src/pages/admin2.tsx and dist/index.js are not part of this model.

## Findings

| source | as written | input that shows it | evidently intended | confidence | as-written member | corrected member |
|---|---|---|---|---|---|---|
| convex/seedData.ts:49-54 | The removal patterns list only the first catalogue records of each module; the records added later (lines 421-429 for sales, and likewise for every module except salaries, whose patterns name all six employees) match none | Seed the database, then remove sample data: the sale "AI Chatbot System" (line 421) stays | Remove every record the seeding created | not executed | SeedData.SourcePatternsMissSeededSale | SeedData.CatalogPatternsCoverSeeds and SeedData.SeededRecordsAreSelected (patterns `SeedData.CatalogPatterns`, passed to `SeedData.Database.RemoveSeededData`) |
