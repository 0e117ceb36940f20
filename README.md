# Interactive Brokers fundamentals XML → tables, in Dafny

This project models the core of the `process-xml.py` script of the
fundamentals retriever. The script reads the Reuters fundamentals XML reports
that the broker returns (`ReportsFinStatements`, `RESC`, `ReportSnapshot`). It
flattens each report into pandas tables and writes one parquet file per report
type and sub-report.

The model covers:

- **The generic flattener** `ib_xml_processor._xml_processor` (module
  `Flattener`, with its properties in `FlattenerProperties`):
  - it finds the collection elements with an ElementTree path;
  - it declares the columns from four ordered dicts (values, attributes,
    top-level attributes, fixed columns);
  - for every element it appends the text of each value match and the named
    attribute of each attribute match;
  - it then pads every column to `max(longest column, rowno)`: top-level
    attributes get the element's attribute, fixed columns get their literal,
    and every other column gets `None`.

  `Flattener.Flatten` is the declarative specification.
  `Flattener.XmlProcessor` is the imperative method with the source's four
  inner loops and the `rowno` counter. It is proved to compute `Flatten`. A
  missing attribute is the `MissingAttribute` error, which is Python's
  `KeyError`.
- **The two multi-level helpers** (module `Statements`):
  - `_process_financial_statements_helper` collects the `coaItem` codes,
    builds the line-item mapping, and flattens the statement of every fiscal
    period with that period's attributes as fixed columns. It returns an empty
    table with the full column set when there is no period, and the
    concatenation otherwise.
  - `_process_fiscal_year_estimates_helper` does the same over the
    `FYEstimate` elements. It has no empty case, so `pd.concat([])` raises.
- **The batch loop** at the end of the script (module `Batch`):
  - the `[]` "no data" sentinel;
  - stamping of the `symbol` and `reportType` columns;
  - accumulation of tables by sub-report name in one `results` dict;
  - the export of every accumulated table with its all-null columns dropped.

  `Batch.RunBatch` is the loop as a method. `Batch.RunReportTypes` is its
  specification.
- **Three catalog entries, transcribed as data** (module `Catalog`):
  - the `issues` mapping of `ReportsFinStatements`;
  - the financial-statement line-item mapping built from `coaItem` attributes
    (in `Statements`);
  - the `toplevel_info` mapping of `ReportSnapshot`, whose attribute dict
    names `IndustryInfo_lastUpdated` twice.

Supporting modules:

- `ElementTree` holds the element tree and the subset of ElementTree paths the
  code uses: `.`, child steps by tag, and `[@attr='v']` predicates.
- `Dicts` holds Python's insertion-ordered dicts as association lists:
  literals, `d[k] = v` and `update`.
- `Tables` holds the DataFrame operations the code uses: an empty frame with
  columns, `pd.concat`, `df[c] = v` and `dropna(axis=1, how='all')`.
- `Wrappers` holds `Option` and `Result`.

Padding follows the code, not the reading "at least one row per element".
The pad target is `max(longest column, rowno)`, where `rowno` is the 1-based
ordinal of the element. So three elements whose one value path matches 2, 1
and 0 items give 3 rows, not 4 (`FlattenerProperties.RowCountExample`).

The script has no `try` around the batch loop. An exception from any
processing method therefore ends the whole run. `Batch.RunBatch` returns the
files written so far and that exception.

## Model

| member | source | states |
|---|---|---|
| ElementTree.FindAllSelf | process-xml.py:16 | the path `.` finds the element itself and nothing else |
| ElementTree.FindAllSound | process-xml.py:16 | every element `findall` returns satisfies the path's last step (tag and attribute predicates) |
| ElementTree.FindAllOneStep | process-xml.py:24 | a one-step path finds exactly the element's children that match the step, in document order |
| ElementTree.Filter | process-xml.py:24 | an element is selected iff it is a child that matches the step |
| ElementTree.Texts | process-xml.py:24 | one cell per found element, in order, holding its text (`None` when it has none) |
| Tables.EmptyTable | process-xml.py:174 | `pd.DataFrame(columns=...)` has every named column and zero rows |
| Tables.Append | process-xml.py:539 | concatenating two frames adds their row counts and has the union of their columns |
| Tables.ColumnOfAppend | process-xml.py:539 | each column of the concatenation is the first frame's cells over the second's, null where a frame lacks it |
| Tables.Concat | process-xml.py:178 | `pd.concat` raises NoObjectsToConcatenate exactly when the list is empty |
| Tables.ConcatShape | process-xml.py:178 | a non-empty concat keeps all rows (sum of row counts), has a column iff some frame has it, and stacks each column's cells in list order |
| Tables.SetColumn | process-xml.py:534-535 | `df[c] = v` adds or replaces column `c` with `v` on every row and leaves the other columns and the row count unchanged |
| Tables.NonNullColumns | process-xml.py:544 | the kept columns are exactly the columns holding some non-null cell, without duplicates |
| Tables.DropAllNullColumns | process-xml.py:544 | `dropna(axis=1, how='all')` removes exactly the all-null columns, keeps the other columns' cells and all rows |
| Flattener.XmlProcessor | process-xml.py:15-47 | the imperative flattener computes `Flatten`: the same table, or the same KeyError |
| Flattener.AddElement | process-xml.py:22-40 | one iteration of the element loop computes one element step and keeps every declared column present |
| Flattener.AppendValues | process-xml.py:23-24 | every value column grows by the texts of its path's matches |
| Flattener.AppendAttributes | process-xml.py:26-27 | every attribute column grows by its matches' attribute; raises KeyError, naming the first missing attribute, iff some match lacks it |
| Flattener.AttrCells | process-xml.py:27 | one cell per match, in order, holding the requested attribute when the match has it |
| Flattener.PadTopLevel | process-xml.py:29-31 | raises KeyError iff the element lacks a top-level attribute, naming the first; otherwise pads each top-level column with the element's attribute |
| Flattener.PadFixed | process-xml.py:33-35 | pads each fixed column with its literal value |
| Flattener.PadNulls | process-xml.py:37-39 | pads every remaining column with `None` up to the target |
| Flattener.Longest | process-xml.py:31 | the pad target is at least `rowno` and at least every column's length |
| Flattener.EmptyColumns | process-xml.py:19 | `column_data` starts with an empty list for every declared column |
| Flattener.RunShaped | process-xml.py:22-40 | the element loop keeps every declared column present |
| FlattenerProperties.ColumnOrder | process-xml.py:18-19 | the columns are the value, attribute, top-level and fixed keys, in that order, each name once at its first occurrence |
| FlattenerProperties.FlattenShape | process-xml.py:15-47 | the table has exactly the declared columns, all of equal length, with as many rows as the padding rule gives for the elements' match counts |
| FlattenerProperties.ElementStepRows | process-xml.py:29-40 | after each element every column has the same length, `max(previous rows + widest match count, rowno)` |
| FlattenerProperties.RunRows | process-xml.py:21-40 | after the k-th element the row count is the padding rule applied to the first k elements |
| FlattenerProperties.RowCountBounds | process-xml.py:21-40 | rows are at least the number of elements, and between the total match count and that total plus the number of elements |
| FlattenerProperties.RowCountAtMostOne | process-xml.py:21-40 | when no path matches more than once per element, there is exactly one row per element |
| FlattenerProperties.RowCountExample | process-xml.py:21-40 | match counts 2, 1, 0 give 3 rows: a later element can add no row |
| FlattenerProperties.EmptyCollection | process-xml.py:16-19 | no collection element gives every declared column, empty, and zero rows |
| FlattenerProperties.FlattenOkIff | process-xml.py:22-40 | the flattener succeeds iff no element lacks an attribute; otherwise it raises KeyError for the first such element's first missing attribute |
| FlattenerProperties.MissingInTopFirst | process-xml.py:30-31 | the top-level loop raises iff some top-level attribute is absent, naming the first absent one |
| FlattenerProperties.MissingInAttributesFirst | process-xml.py:26-27 | the attribute loop raises iff some mapped attribute is absent from a match, naming the first such entry |
| FlattenerProperties.ElementColumn | process-xml.py:22-39 | one element adds to column k its value texts, then its attribute cells, then padding with the column's fill |
| FlattenerProperties.TopAndFixedNeverNull | process-xml.py:29-35 | a column filled only by a top-level attribute or a fixed value never holds `None` |
| FlattenerProperties.FixedColumnConstant | process-xml.py:33-35 | a fixed column that nothing else fills holds its literal on every row |
| FlattenerProperties.ValueCellsOfDict | process-xml.py:23-24 | a value column receives the texts of the matches of its path in the dict |
| FlattenerProperties.AttributeCellsOfDict | process-xml.py:26-27 | an attribute column receives the named attribute of the matches of its path in the dict |
| Dicts.Keys | process-xml.py:18 | `list(d.keys())` has one name per entry, in order |
| Dicts.Dedup | process-xml.py:19 | the dict comprehension's keys are the names, each once |
| Dicts.DedupOrder | process-xml.py:18-19 | the deduplicated names keep the order of their first occurrences |
| Dicts.PutSemantics | process-xml.py:160 | `d[k] = v` sets `k` to `v` (appended when new, in place otherwise) and leaves the other keys alone |
| Dicts.UpdateKeys | process-xml.py:144-150 | `update` keeps the old keys in order and appends the new ones |
| Dicts.UpdateValues | process-xml.py:144-150 | after `update` a key holds the update's last value for it, or its old value |
| Dicts.FromPairsSemantics | process-xml.py:413-431 | a dict literal keeps each key once, at its first position, with its last value |
| Dicts.PutTwice | process-xml.py:417-418 | assigning the same key and value twice is assigning it once |
| Dicts.UpdateConcat | process-xml.py:413-431 | building a dict from two runs of pairs is updating with the first run, then the second |
| Dicts.RepeatedEntry | process-xml.py:417-418 | a literal with an entry written twice in a row equals the literal with it written once |
| Dicts.LastValueBefore | process-xml.py:417-418 | an entry that no later entry renames gives its key's value |
| Statements.CoaItems | process-xml.py:126-130 | the codes are the mapItems' `coaItem` attributes in order; KeyError('coaItem') iff some mapItem lacks it |
| Statements.CollectCoaItems | process-xml.py:129-130 | the loop over mapItems computes `CoaItems` |
| Statements.CodeValues | process-xml.py:136 | one value entry per code, in order, with path `lineItem[@coaCode=code]` |
| Statements.StatementValues | process-xml.py:134-150 | the value dict has the codes then the header names, each once; a header name wins over an equal code |
| Statements.FiscalPeriodColumnsKeys | process-xml.py:154-160 | the fixed columns are `FiscalPeriodType`, `FiscalPeriodEndDate` and `FiscalPeriodYear` (from the period's `Type`, `EndDate` and `FiscalYear` attributes), plus `FiscalPeriodNumber` (from `FiscalPeriodNumber`) iff the period type is `Interim` |
| Statements.FixedNamesApart | process-xml.py:139-160 | no fixed column shares its name with a header value, header attribute or statement attribute |
| Statements.FixedColumns | process-xml.py:166 | the fixed columns take the period's attributes in order; KeyError for the first missing attribute, never a null |
| Statements.FixedLookup | process-xml.py:166 | each fixed column's value is the period's attribute named in the map |
| Statements.Collect | process-xml.py:165-168 | the loop succeeds iff every period succeeds, keeping the tables in order; otherwise it raises the first period's error |
| Statements.OuterTablesKeyError | process-xml.py:165-168 | a failing period loop raises KeyError |
| Statements.ProcessOuter | process-xml.py:165-168 | the loop appending one flattened table per outer element computes `OuterTables` |
| Statements.OuterTableStamped | process-xml.py:166-168 | every row of a period's table carries that period's attribute in each fixed column |
| Statements.FinancialStatementsHelper | process-xml.py:121-178 | the imperative helper computes `FinancialStatements` |
| Statements.EmptyStatementColumns | process-xml.py:174 | the empty table's columns are the codes, header values, header attributes, statement attributes and fixed columns, with FiscalPeriodNumber for `Interim` |
| Statements.NoFiscalPeriods | process-xml.py:170-174 | with no fiscal period the helper returns the empty table with the full column set |
| Statements.FiscalPeriodsConcatenated | process-xml.py:164-178 | with periods, the result is the concat of one table per period, in document order, rows summed and columns stacked |
| Statements.FinancialStatementsRaises | process-xml.py:165-168 | the helper raises iff some period's flattening raises |
| Statements.FiscalPeriodStamped | process-xml.py:166-168 | every row of a period's table carries that period's `Type`, `EndDate` and `FiscalYear` attributes in the columns `FiscalPeriodType`, `FiscalPeriodEndDate` and `FiscalPeriodYear` (and `FiscalPeriodNumber` in `FiscalPeriodNumber`) |
| Statements.FiscalYearEstimatesHelper | process-xml.py:316-347 | the imperative helper computes `FiscalYearEstimates` |
| Statements.NoEstimatesNoTable | process-xml.py:337-347 | the helper raises NoObjectsToConcatenate exactly when there is no FYEstimate |
| Statements.EstimatesConcatenated | process-xml.py:341-347 | with estimates, the result is the concat of one table per FYEstimate, in document order |
| Statements.EstimateStamped | process-xml.py:342-344 | every row of an estimate's table carries its `type` and `unit`, read as attributes that must exist |
| Statements.EstimateNamesApart | process-xml.py:317-342 | `type` and `unit` are fixed columns only, with their own attribute names |
| Catalog.IssueCompleteIff | process-xml.py:85-105 | an issue flattens without KeyError iff it has ID, Type, Desc and Order and its Exchange/MostRecentSplit matches carry Code, Country and Date |
| Catalog.IssuesOkIff | process-xml.py:85-105 | `process_issues` succeeds iff every issue is complete; its only error is KeyError |
| Catalog.IssueValueNames | process-xml.py:88-97 | every value column is named `Issue ...`, so none clashes with a top-level column |
| Catalog.IssueAttributeNames | process-xml.py:100-102 | every attribute column starts with `E` or `M`, so none clashes with a top-level column |
| Catalog.IssueIdentityNeverNull | process-xml.py:105 | IssueID, IssueType, IssueDesc and IssueOrder are never null in the issues table |
| Catalog.RepeatedLastUpdatedCollapses | process-xml.py:413-432 | the attribute dict with `IndustryInfo_lastUpdated` written twice equals the one with it written once, and so does the table |
| Catalog.NotRenamedLater | process-xml.py:419-429 | no later attribute entry reuses the name `IndustryInfo_lastUpdated` |
| Catalog.LastUpdatedSource | process-xml.py:417-418 | `IndustryInfo_lastUpdated` is read from `peerInfo`'s `lastUpdated` attribute |
| Catalog.SnapshotToplevelColumns | process-xml.py:386-431 | the declared columns are exactly the 24 names of the `values` dict in order, then the 15 names of the `attributes` dict in order, `IndustryInfo_lastUpdated` once although the literal lists it twice |
| Catalog.WholeDocumentRows | process-xml.py:432 | flattening the document itself (`.`) gives max(widest match count, 1) rows |
| Catalog.SnapshotToplevelRows | process-xml.py:385-432 | the snapshot's top-level table has max(widest match count, 1) rows |
| Batch.SkipsAsEmptyIff | process-xml.py:524-528 | a file is skipped iff its first two characters are `[]` |
| Batch.SkippedFileUntouched | process-xml.py:526-528 | a skipped file is never processed: whatever its methods would return, the accumulated tables stay the same |
| Batch.SkippedCompaniesUntouched | process-xml.py:519-528 | a report type whose files are all missing or skipped changes nothing |
| Batch.Stamp | process-xml.py:534-535 | the table gains `symbol` = company and `reportType` = report type on every row; other columns and the row count are unchanged |
| Batch.StampStamped | process-xml.py:534-535 | a stamped table names a processed company and report type on every row |
| Batch.AccumulateSemantics | process-xml.py:536-539 | a new sub-report name is appended with its table; a known name gets the concat of its old table and the new one; other names are unchanged |
| Batch.ConcatPair | process-xml.py:539 | `pd.concat([old, df])` is appending `df`'s rows |
| Batch.Store | process-xml.py:536-539 | the `if/else` store computes `Accumulate` |
| Batch.AddFileSubreports | process-xml.py:531-539 | the sub-report loop stamps and accumulates each table in order, stopping at the first exception |
| Batch.AddSubreportsRaises | process-xml.py:531-533 | an exception from a processing method ends the file's processing with that exception |
| Batch.AddSubreportsAccepts | process-xml.py:533-539 | a table from a processing method is stamped and accumulated under its sub-report name |
| Batch.AddSubreportsKeys | process-xml.py:536-539 | the accumulated names are all sub-report names seen, each once, in first-seen order: keyed by name alone |
| Batch.AppendStamped | process-xml.py:539 | concatenating stamped tables gives a stamped table |
| Batch.AccumulateStamped | process-xml.py:536-539 | accumulating a stamped table keeps every accumulated table stamped |
| Batch.AddSubreportsStamped | process-xml.py:531-539 | after a file every accumulated table is stamped |
| Batch.AddCompaniesStamped | process-xml.py:519-539 | after a pass over the companies every accumulated table is stamped |
| Batch.AddCompaniesErrPrefix | process-xml.py:519-539 | once a company's file raises, the rest of the pass does not run |
| Batch.ExportAll | process-xml.py:542-554 | one export per accumulated sub-report, in `results` order, named `{reportType}_{name}`, with its all-null columns dropped |
| Batch.WriteExports | process-xml.py:542-554 | the export loop computes `ExportAll` |
| Batch.DropLabelled | process-xml.py:544 | `symbol` and `reportType` survive the drop and still label every row |
| Batch.ExportAllLabelled | process-xml.py:542-554 | every exported table labels every row with a processed company and report type |
| Batch.RunBatch | process-xml.py:516-555 | the batch loop writes the exports of `RunReportTypes` and ends with its exception, if any |
| Batch.RunFailedPrefix | process-xml.py:518-555 | once a report type raises, no later report type runs |
| Batch.RunLabelled | process-xml.py:516-555 | every written table labels every row with a processed company and report type |
| Batch.OneFileAdded | process-xml.py:521-539 | a non-skipped file adds its stamped sub-report table |
| Batch.OneFileFirstPass | process-xml.py:516-554 | one company with one file: the first pass exports its table under that report type |
| Batch.RunFirst | process-xml.py:516-554 | the first report type starts from an empty `results` and exports what its companies added |
| Batch.RunNext | process-xml.py:518-554 | a further report type accumulates into the same `results` and exports all of it |
| Batch.OneFileSecondPass | process-xml.py:516-554 | a second report type with no file re-exports the first report type's table |
| Batch.StampSurvivesDrop | process-xml.py:535-544 | the `reportType` column of a stamped table survives the all-null drop unchanged |
| Batch.ReexportMixesReportTypes | process-xml.py:516-554 | as written: the file named after the second report type holds rows labelled with the first report type |
| Batch.PerReportTypeLabelled | process-xml.py:516-554 | with `results` reset per report type, every file `{r}_{name}` holds rows of report type `r` only |

## Left out

- Reading and parsing files: `ET.parse`, `open`/`read(2)`, `os.listdir`,
  `os.path.exists` and `os.makedirs`. The tree is given as an in-memory
  `Element`. A company's report file is given as its contents and as the
  outcome of each processing method of its report type, in order. A file
  that passes the `[]` test but is not well-formed XML makes `ET.parse`
  raise (process-xml.py:530) and ends the run; `Error` has no case for this
  parse failure, so it is not modelled.
- `print` and `to_parquet`: the written files are the returned list of
  `(name, table)` exports.
- The `pd.to_numeric` dtype detection before export. It is floating-point
  parsing inside pandas, so exported cells stay text.
- pandas' row index, dtypes and the column order `pd.concat` chooses. The
  model orders columns by first appearance and states its properties on
  column sets.
- Flattener.Flatten: a name declared in two of the four dicts becomes one
  column. pandas would carry the label twice, with the same cells.
- Tables.EmptyTable: a name repeated in `cols` becomes one column, while
  `pd.DataFrame(columns=...)` keeps the repeated label.
- Statements.EmptyStatementColumns: the same single-column treatment of a
  repeated name applies to the empty statement table of process-xml.py:174.
- ElementTree path features the code never uses (`//`, wildcards, positional
  predicates, namespaces). Paths are child steps, `.` and exact `[@attr='v']`
  predicates.
- The processing methods of the batch model are inputs. How each one flattens
  its tree is modelled by `Flattener`, `Statements` and `Catalog`; the list of
  methods per report type is not transcribed.
- The other `process_*` catalog entries. They are literal mapping data of the
  same shape as the three transcribed ones.
- The database upload script and the report download script are database and
  network I/O.

## Findings

| source | as written | input that shows it | evidently intended | confidence | as-written member | corrected member |
|---|---|---|---|---|---|---|
| process-xml.py:516 | `results = {}` is created once, before the report-type loop, and never reset. Each report type's export loop (542-554) writes everything accumulated so far. So later report types re-export earlier report types' tables under their own names, and same-named sub-reports (`issues`, `toplevel_info`) of different report types are concatenated together. | One company with a `ReportsFinStatements` file whose processing gives sub-report `issues`, and no `ReportSnapshot` file. `ReportSnapshot_issues` is written and holds only rows labelled `ReportsFinStatements`. | Same-named sub-reports of different report types (`issues`, `toplevel_info`) are not merged into one table: process-parquet-save-to-sqldb.py:32 and :40 load `ReportsFinStatements_issues` and `ReportSnapshot_issues` as two separate tables ("Stock Issues Financial Statements", "Stock Issues Snapshot"). The re-export of tables under later report-type names is not in that intent: the same loader (lines 34-38 and 41-44) reads the RESC sub-reports (`actuals_*`, `company_profile`, `fiscal_year_estimates_*`, `net_profit_estimates`, `periods_*`, `security_info`, process-xml.py:202-210) from `ReportSnapshot_*` files, so it relies on that re-export. | not executed | Batch.ReexportMixesReportTypes | Batch.PerReportTypeLabelled |

`Batch.RunBatch` and `Batch.RunReportTypes` keep the behaviour as written.
`Batch.RunPerReportType` is the corrected loop for the merging of same-named
sub-reports: it starts each report type from an empty `results`.
`Batch.PerReportTypeLabelled` proves that every file it writes holds only the
rows of the report type the file is named after, so `ReportsFinStatements_issues`
and `ReportSnapshot_issues` no longer share rows. This correction also drops
the re-export: under it the RESC sub-reports are written only as `RESC_*`,
which the loader above does not read, so a loader-compatible fix would have to
keep the re-export of names no later report type produces itself.
