# VNStock data collection: `data_utils` in Dafny

This project models the reusable core of the VNStock crawler, `src/data_utils.py`.
That file holds:

- the file sinks: `log_error`, `write_or_append_csv`, `init_json_file` and `append_json`;
- the `retry_on_error` decorator;
- the per-symbol batch collectors: `get_company_info`, `get_officers`, `get_shareholders`, `get_dividends`, `get_stock_quote_history`, `get_financial_data` and its four statement front ends;
- the listing filter of `get_companies`.

The local file system is a class `Files.Disk` with one mutable field: a map from path to file text.
A path missing from the map is a file that does not exist.
Each sink is a method of that disk, and each collector is a module-level method that takes the disk.
Its `ensures` clause equates the new map with a pure function of the old map and the inputs.
The lemmas state what those functions guarantee.

Modules, one per file:

- `Outcomes` (outcomes.dfy): a value or a raised exception with its message text, and `Option`.
- `Text` (text.dfy): line-terminated and separator-joined text.
- `Seqs` (seqs.dfy): order-preserving filtering and subsequences.
- `Files` (files.dfy): the disk, `log_error`, `write_or_append_csv`, `init_json_file` and `append_json`.
- `JsonArray` (json_array.dfy): the JSON-array file that `append_json` keeps across calls. It is described as the objects it holds and whether it is open or closed.
- `Retry` (retry.dfy): `retry_on_error`, with the wrapped call replaced by an oracle `Fetch<T>`. The oracle gives the outcome of each attempt for each symbol.
- `Tables` (tables.dfy): the data frames the fetchers return, `df['symbol'] = symbol` and the column reorder.
- `Companies` (companies.dfy): `get_companies`.
- `Collectors` (collectors.dfy): the CSV collectors, sharing one loop.
- `CompanyInfo` (company_info.dfy): `get_company_info`, the collector that writes a JSON array.

Behaviour kept as the code has it:

- The retry notices are logged to the wrapped call's last positional argument.
  `get_financial_data` passes `err_file_path` to `fetch_with_retry` by keyword.
  So the notices of the financial collectors go to a file named after the symbol, not to the error log.
  `Collectors.RetryLogPath` encodes this and `Collectors.FinancialNoticesGoToSymbol` proves where they end up.
- `get_company_info` always appends `]` after its loop.
  - When the last symbol's object was appended with `is_last`, the file ends in `]]` (`CompanyInfo.CompanyInfoDoubleClose`).
  - When the file starts absent and the last symbol failed, the file is `[`, then each fetched object followed by `,\n`, then `]` (`CompanyInfo.CompanyInfoLastFailed`).
    With at least one object this ends in `,\n]`; with nothing fetched it is `[]` (`CompanyInfo.CompanyInfoNoObjects`).
  - A file that was already a complete array with objects, and gets no new object, ends in `]]` (`CompanyInfo.CompanyInfoClosedNoObjects`).
- `append_json` on an existing empty file raises, because seeking one byte before the end fails (`Files.SeekError`).
- A JSON file left as `[]` by a run that appended nothing gets `[,\n` followed by the object on the next append (`JsonArray.EmptyClosedArrayReopened`).
- The retry delays are the fixed schedule 10, 30, 60 of `src/data_utils.py:55`.
  This code has no rate-limit hint that overrides a delay, and no throttle between symbols.

## Model

| member | source | states |
|---|---|---|
| Files.AfterLogError | src/data_utils.py:9-12 | the log file exists afterwards and its text is its old text (empty if it was absent) followed by one line "stamp - message\n"; every other path keeps its existence and its text |
| Files.Disk.LogError | src/data_utils.py:9-12 | the disk after log_error is AfterLogError of the disk before |
| Files.AppendLogsLog | src/data_utils.py:9-12 | successive log_error calls leave the old text of the log followed by exactly their lines, in call order |
| Files.AppendLogsOther | src/data_utils.py:9-12 | log_error calls neither create nor change any file but the log |
| Files.AfterCsvWrite | src/data_utils.py:14-19 | an absent file becomes the header line followed by the rows; an existing file keeps its text and gains only the rows; no other path is created or changed |
| Files.Disk.WriteOrAppendCsv | src/data_utils.py:14-19 | the disk after write_or_append_csv is AfterCsvWrite of the disk before |
| Files.CsvAppendsRows | src/data_utils.py:14-19 | any number of writes to an existing CSV file append all their rows, in call order, and never a header |
| Files.CsvHeaderOnce | src/data_utils.py:14-19 | a file holding a header and rows keeps that header exactly once, on top, followed by the old rows and then every later write's rows |
| Files.CsvFromAbsent | src/data_utils.py:14-19 | from an absent file, a sequence of writes leaves the first write's header once, followed by all rows in call order |
| Files.AfterInitJson | src/data_utils.py:21-25 | an absent file becomes "[" and every other path keeps its existence and its text; an existing file leaves the whole map unchanged |
| Files.InitJsonIdempotent | src/data_utils.py:21-25 | init_json_file twice gives the same files as once |
| Files.Disk.InitJsonFile | src/data_utils.py:21-25 | the disk after init_json_file is AfterInitJson of the disk before |
| Files.AppendJsonContent | src/data_utils.py:27-46 | append_json on one file's content (None when absent); it raises exactly when the file exists and is empty, and then with the seek error |
| Files.AppendJsonShape | src/data_utils.py:27-46 | absent file: "[" + object + terminator. Empty file: the seek error. Trailing "]": every earlier character kept, that one character replaced by ",\n", then object + terminator. Any other last character: the old text is a prefix and only object + terminator follow |
| Files.AfterAppendJson | src/data_utils.py:27-46 | append_json fails exactly when the file exists and is empty; on success the map is the old one with only the target file set |
| Files.Disk.AppendJson | src/data_utils.py:27-46 | on success the disk becomes AfterAppendJson of the old disk; on the seek error the error is returned and no file changed |
| Files.Disk.AppendRaw | src/data_utils.py:133-135 | the final write of get_company_info: the disk becomes AppendText of the old disk, the file's old text (empty when absent) followed by the text |
| Files.AfterCsvOverwrite | src/data_utils.py:80 | to_csv without mode="a": the file holds exactly the header line and the rows, whatever it held before; no other path is created or changed |
| Files.Disk.WriteCsv | src/data_utils.py:80 | the disk after the overwrite is AfterCsvOverwrite of the disk before |
| JsonArray.Push | src/data_utils.py:41-46 | one more append adds the object at the end of the array, which is closed exactly when is_last was given, and can be appended to again |
| JsonArray.OpenLastChar | src/data_utils.py:30-34 | an open array file is never empty and never ends in "]", so append_json keeps it whole |
| JsonArray.AppendKeepsObjects | src/data_utils.py:30-46 | on an open array, or a closed one with objects, append_json keeps "[" and each old object followed by ",\n", then writes the object and its terminator |
| JsonArray.PushRender | src/data_utils.py:41-46 | the text of the array after one more object is what append_json writes after the kept part |
| JsonArray.AppendJsonOnState | src/data_utils.py:27-46 | append_json on the text of a resumable array state gives the text of the next state |
| JsonArray.AppendJsonOnAbsent | src/data_utils.py:38-46 | append_json on an absent file gives the text of one object pushed onto the empty open array |
| JsonArray.PushAllShape | src/data_utils.py:27-46 | after several appends the array holds the old objects and then the new ones in order, closed exactly when the last call said is_last |
| JsonArray.AppendSeqFromState | src/data_utils.py:27-46 | a sequence of append_json calls on a resumable array's text gives the text of the state after all of them |
| JsonArray.ValidArrayAfterAppends | src/data_utils.py:27-46 | from an absent file or a resumable array, appends whose last call says is_last leave a complete JSON array of the old and the new objects, however the calls were split across runs |
| JsonArray.EmptyClosedArrayReopened | src/data_utils.py:30-37 | appending to "[]" leaves "[,\n" + object + "]" |
| Retry.AttemptsFrom | src/data_utils.py:56-61 | from attempt k the wrapper makes at least k + 1 and at most 4 calls |
| Retry.Attempts | src/data_utils.py:56-61 | the wrapper calls the fetcher between 1 and 4 times |
| Retry.AttemptsStop | src/data_utils.py:56-70 | every call before the last one failed, and the last one succeeded unless it was the fourth |
| Retry.RetryMessages | src/data_utils.py:63-67 | after k failed attempts there are exactly k retry notices |
| Retry.RetryMessageAt | src/data_utils.py:63-67 | the i-th notice says "Retry i+1" and carries the error of call i |
| Retry.RetryFilesAreLogs | src/data_utils.py:63-67 | logging the notices one after another is the log_error sequence of the whole notice list |
| Retry.RetryFilesLog | src/data_utils.py:63-67 | the log at the last positional argument gains exactly the call's notices, in order, after its old text |
| Retry.RetryFilesElsewhere | src/data_utils.py:63-67 | the wrapper neither creates nor changes any file but that log |
| Retry.RetryStep | src/data_utils.py:56-67 | after a failed call k below 3, one notice is logged and the next delay of the schedule is recorded |
| Retry.LastAttempt | src/data_utils.py:56-70 | when the calls from k on are all the wrapper makes, it stops after call k exactly when that call succeeded or was the fourth (both directions) |
| Retry.RetryOnError | src/data_utils.py:48-71 | the result is the outcome of the last call (a success, or the fourth error re-raised); the number of calls it returns is the number of attempts; the sleeps are the schedule up to that call; the disk holds the notices |
| Retry.SuccessAtAttempt | src/data_utils.py:56-67 | a first success at call k (calls are numbered from 0) is returned after k + 1 calls, sleeps 10, 30, 60 cut to length k, and notices "Retry 1" to "Retry k" carrying the errors of calls 0 to k-1 |
| Retry.AllAttemptsFail | src/data_utils.py:56-70 | four failures: four calls, the fourth error re-raised, sleeps exactly [10, 30, 60], exactly three notices |
| Retry.RetryMessage | src/data_utils.py:65 | the text of one retry notice, from the attempt number, the function's name and the error |
| Retry.RetryNoticeText | src/data_utils.py:65 | for every n from 1 to 3, notice n is "Retry " + the digit of n + " for <function name> due to error: <error>" |
| Seqs.Filter | src/data_utils.py:78 | the kept elements form a subsequence of the input, all pass the test, and every passing value is kept as often as it occurs |
| Companies.IsHsxStock | src/data_utils.py:78 | the row filter: exchange "HSX" and type "STOCK" |
| Companies.HsxStocks | src/data_utils.py:78 | the table keeps the HSX stock rows in listing order, each as often as the listing has it, and no other row |
| Companies.FilterKeepsExactlyHsxStocks | src/data_utils.py:78 | a row is kept exactly when it is in the listing with exchange HSX and type STOCK |
| Companies.Companies | src/data_utils.py:78-79 | one company per kept row, in order, without the two organisation-name columns |
| Companies.CompanyLines | src/data_utils.py:80 | one CSV line per company, in order |
| Companies.GetCompanies | src/data_utils.py:73-87 | on success the companies file is rewritten with the header and the filtered rows, and the table is returned; on failure one "Error fetching companies" line is logged and the result is empty |
| Tables.WithColumn | src/data_utils.py:152 | the symbol column is overwritten where it exists and appended last where it does not; the row count is unchanged |
| Tables.WithColumnCell | src/data_utils.py:152 | every row holds the symbol under "symbol", and every other column keeps its cells |
| Tables.Without | src/data_utils.py:153 | the comprehension drops "symbol", keeps every other column, and keeps their relative order |
| Tables.Select | src/data_utils.py:154 | selecting columns gives exactly those columns, in that order, with the same number of rows |
| Tables.SelectCell | src/data_utils.py:154 | each selected column keeps its cells |
| Tables.TagSymbol | src/data_utils.py:152-154 | the tag-and-reorder of a fetched frame; its shape is stated by TagSymbolShape |
| Tables.TagSymbolShape | src/data_utils.py:152-154 | "symbol" is the first column and occurs nowhere else; the other columns follow in their original order; every row starts with the symbol; every other cell is kept |
| Tables.TagSymbolDistinct | src/data_utils.py:152-154 | a frame with distinct column names still has distinct names after the tag and reorder |
| Tables.CsvRows | src/data_utils.py:17-19 | one CSV line per row, in order |
| Collectors.RetryLogPath | src/data_utils.py:67-258 | where the wrapper logs its notices (its last positional argument, line 67): err_file_path for every fetcher, except the symbol for fetch_with_retry, whose err_file_path is passed by keyword (line 258) |
| Collectors.Selected | src/data_utils.py:146-147 | the symbols a run handles: a prefix of the input, cut to the limit in test mode and whole otherwise |
| Collectors.Head | src/data_utils.py:146-147 | head(n) is the first min(n, length) symbols, in input order |
| Collectors.Finish | src/data_utils.py:151-159 | a symbol's final outcome: a table is prepared and written with write_or_append_csv, an error is logged with its failure line |
| Collectors.CsvStep | src/data_utils.py:149-159 | one loop iteration on the file map: the retry notices, then Finish of the outcome |
| Collectors.FinishDataFile | src/data_utils.py:155-159 | a written table creates the CSV file with its header or appends its rows only; a failure leaves the CSV file as it was |
| Collectors.FinishSymbol | src/data_utils.py:155-159 | the disk after one symbol's outcome is written or logged is Finish of the disk before |
| Collectors.CsvStepDataFile | src/data_utils.py:148-160 | one symbol changes the CSV file only by its own prepared table |
| Collectors.DataFileStep | src/data_utils.py:148-160 | one more symbol keeps the CSV file in its run shape: old text (or the first header) followed by every written row in order |
| Collectors.CsvRunDataFile | src/data_utils.py:148-160 | after a run the CSV file holds its old text, or the first written table's header when the run created it, then every successful symbol's rows in symbol order; with no success an absent file stays absent |
| Collectors.FinishErrorLog | src/data_utils.py:157-159 | a symbol's final outcome adds one failure line to the error log when it is an error, and nothing otherwise |
| Collectors.CsvStepErrorLog | src/data_utils.py:148-160 | one symbol adds to the error log its retry notices (when they go there), then its failure line if the fetch gave up |
| Collectors.CsvRunErrorLog | src/data_utils.py:148-160 | after a run the error log holds its old text followed by every symbol's lines in symbol order; a failure does not stop the run |
| Collectors.FinancialNoticesGoToSymbol | src/data_utils.py:258 | the retry notices of fetch_with_retry land in the file named by the symbol; the error log gets only the failure line |
| Collectors.FinishElsewhere | src/data_utils.py:155-159 | a symbol's outcome neither creates nor changes any file but the CSV file and the error log |
| Collectors.RunCallsBounds | src/data_utils.py:148-150 | n symbols cost between n and 4n fetch calls, and every call except each symbol's first is preceded by one sleep |
| Collectors.SymbolLogCount | src/data_utils.py:148-160 | every call for a symbol that wrote no table leaves exactly one line in the error log |
| Collectors.CollectOne | src/data_utils.py:149-160 | one loop iteration moves the disk, the call count and the sleeps from their values after i symbols to their values after i + 1 |
| Collectors.Collect | src/data_utils.py:143-160 | the loop handles exactly the selected symbols in order: the disk ends as the run function gives it, with the calls and sleeps of all symbols |
| Collectors.GetOfficers | src/data_utils.py:143-160 | the shared loop with head(10) in test mode, fetch_officers and the officers failure line |
| Collectors.GetShareholders | src/data_utils.py:168-185 | the shared loop with head(10) in test mode, fetch_shareholders and the shareholders failure line |
| Collectors.GetDividends | src/data_utils.py:193-210 | the shared loop with head(10) in test mode, fetch_dividends and the dividends failure line |
| Collectors.GetStockQuoteHistory | src/data_utils.py:220-238 | the shared loop with head(3) in test mode, one end date for the whole run (today's date when none is given) |
| Collectors.GetFinancialData | src/data_utils.py:247-265 | the shared loop with head(10), untagged tables, notices at the symbol's path, and the statement function's name in the failure line |
| Collectors.GetStatement | src/data_utils.py:267-289 | the four front ends pass "quarter" or "year" and a lambda, so the failure lines name "<lambda>" |
| CompanyInfo.IsLast | src/data_utils.py:121-126 | is_last holds for the symbol at the last position of the run |
| CompanyInfo.InfoStep | src/data_utils.py:123-132 | one loop iteration on the file map: the notices go to the error log, the object is appended with is_last, and a failed fetch or append is logged |
| CompanyInfo.InfoStateShape | src/data_utils.py:122-127 | after n symbols the array holds the old objects then every fetched object in order. It is closed exactly when the last symbol of the run was fetched, or, with nothing fetched, when it was closed before. It stays resumable |
| CompanyInfo.InfoStepOnState | src/data_utils.py:122-132 | one symbol moves the JSON file from the text of one array state to the text of the next, and adds that symbol's notices and failure line to the error log |
| CompanyInfo.InfoStepKeeps | src/data_utils.py:122-132 | the state after k symbols and the error log's text after k symbols are carried to k + 1 |
| CompanyInfo.InfoRunOnState | src/data_utils.py:122-132 | over the loop the JSON file renders the state the fetched objects lead to, and the error log gains every symbol's lines in symbol order |
| CompanyInfo.CompanyInfoOnState | src/data_utils.py:114-135 | from an absent file or a resumable array, the JSON file ends as the final state's text followed by the extra "]"; the error log gains every symbol's lines |
| CompanyInfo.CompanyInfoNoObjects | src/data_utils.py:120-135 | from an absent file, when nothing was fetched the file is "[]" |
| CompanyInfo.CompanyInfoDoubleClose | src/data_utils.py:122-135 | from an absent file, when the last symbol was fetched the file is the complete array followed by a second "]" |
| CompanyInfo.CompanyInfoLastFailed | src/data_utils.py:122-135 | from an absent file, when the last symbol failed the file is "[" and each object followed by ",\n", then "]" |
| CompanyInfo.CompanyInfoClosedNoObjects | src/data_utils.py:120-135 | from a complete array with objects, when nothing is fetched the file is that array followed by a second "]" |
| CompanyInfo.InfoOne | src/data_utils.py:123-132 | one loop iteration moves the disk, the call count and the sleeps from their values after i symbols to their values after i + 1 |
| CompanyInfo.GetCompanyInfo | src/data_utils.py:114-135 | init, then the loop over the selected symbols (head(10) in test mode) with is_last by position, then "]"; the calls and sleeps are those of every symbol |

## Left out

- The provider SDK calls (`Vnstock`, `Company`, `stock.finance.*`, `quote.history`, `symbols_by_exchange`) are not modelled. They are replaced by oracles that give the outcome of each attempt for each symbol, or the listing.
  An oracle is keyed by the symbol and the attempt number, so a symbol listed twice in one run gets the same outcomes both times.
- The exact text of `json.dump` and `to_csv` is not modelled. A JSON object is opaque text, and a CSV line is the cells joined by commas, with no quoting.
- `print` calls are left out, because they produce console output only.
- The timestamp of `log_error` is a `stamp` parameter, one per run. `time.sleep` is recorded as the list of delays slept. `datetime.today()` is the `today` parameter.
- Exceptions raised by pandas itself (building a frame, setting the column, `to_csv`) are not modelled; only fetch failures and the `append_json` seek error are.
- Duplicate column names in a fetched frame are not modelled. `Tables.TagSymbolDistinct` assumes distinct names, and `Tables.Cell` reads the first column of a name.
- The error log's line count over a whole run is not stated as a number. It is given per symbol (`Collectors.SymbolLogCount`) and as the exact text of the whole run (`Collectors.CsvRunErrorLog`).
- Collectors.CsvRunErrorLog: for the financial collectors it requires that no symbol equals the error-log path. Otherwise that symbol's retry notices would land in the error log too.
- Collectors.CsvRunDataFile: for the financial collectors it requires that no symbol equals the CSV path. Otherwise that symbol's notices would land in the data file.
- CompanyInfo.CompanyInfoOnState: it covers a JSON file that starts absent or as a resumable array. A file that starts as `[]` or as other text is described only by `CompanyInfo.CompanyInfoFiles` and `JsonArray.EmptyClosedArrayReopened`.
- Collectors.FinishDataFile, Collectors.FinishErrorLog, Collectors.CsvStepErrorLog, Collectors.CsvRunDataFile and Collectors.CsvRunErrorLog: they require the CSV file and the error log to be different paths. When they are the same file, the failure lines and the rows are mixed, and only `Collectors.CsvRun` describes the result. The callers in the repository pass distinct paths.
- The keyword defaults of the collectors (`is_test=True`, and `start_date="2020-01-01"`, `end_date=None` for `get_stock_quote_history`) are not modelled as defaults: `isTest`, `startDate` and `endDate` are ordinary parameters, so a caller states them.
- CompanyInfo.InfoRunOnState: it requires the JSON file and the error log to be different paths, as does every lemma about a whole run. When they are the same file, error lines are mixed into the array text, and only `CompanyInfo.CompanyInfoFiles` describes the result.
- Companies.ListingRow fixes the listing to the five columns the filter and the drop touch, and the companies header is the constant "symbol,exchange,type". The listing's other columns are kept by `drop` and written by `to_csv` (src/data_utils.py:79-80), and they are not modelled. A listing without one of the dropped columns makes `drop` raise a KeyError, which is caught and logged like a fetch failure (src/data_utils.py:83-85); the model has no such listing.
- The collectors take a list of symbols, not a data frame. A frame without a 'symbol' column makes `companies_df['symbol']` raise a KeyError that nothing catches (src/data_utils.py:121, 148, 173, 198, 227 and 255). The empty frame that `get_companies` returns on failure (src/data_utils.py:87) is such a frame, so a failed listing stops the collectors that are given its result. That path is not modelled.
- The other files of the repository are not part of this model: the cloud-storage helpers, the Spark cleaning scripts, the crawler scripts and the entry points.
