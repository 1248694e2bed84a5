/** The per-symbol batch collectors that write CSV: get_officers,
    get_shareholders, get_dividends, get_stock_quote_history and
    get_financial_data (with its four statement front ends). Each walks the
    symbols in order, retries each fetch, appends the successful table to
    one CSV file and logs one line for each symbol whose fetch gave up. */
module Collectors {
  import opened Outcomes
  import opened Text
  import opened Files
  import opened Retry
  import opened Tables

  /** The collectors differ only in these respects. `Financial` carries the
      name of the statement function it was given. */
  datatype Category = Officers | Shareholders | Dividends | QuoteHistory | Financial(fetcherLabel: string)

  /** How many symbols test mode keeps: head(3) for quotes, head(10) otherwise. */
  function TestLimit(c: Category): nat
  {
    if c.QuoteHistory? then 3 else 10
  }

  /** The __name__ of the wrapped fetcher, as the retry notices print it. */
  function FetcherName(c: Category): string
  {
    match c
    case Officers => "fetch_officers"
    case Shareholders => "fetch_shareholders"
    case Dividends => "fetch_dividends"
    case QuoteHistory => "fetch_stock_quote_history"
    case Financial(_) => "fetch_with_retry"
  }

  /** The line logged when a symbol's fetch gave up with `error`. */
  function FailureMessage(c: Category, symbol: string, error: string): string
  {
    match c
    case Officers => "Error fetching officers data for " + symbol + ": " + error
    case Shareholders => "Error fetching shareholders data for " + symbol + ": " + error
    case Dividends => "Error fetching dividends data for " + symbol + ": " + error
    case QuoteHistory => "Error fetching stock quote history for " + symbol + ": " + error
    case Financial(fetcher) => "Error fetching financial data for " + symbol + " using " + fetcher + ": " + error
  }

  /** Where the retry notices go: the wrapped call's last positional argument.
      fetch_with_retry gets the error-log path as a keyword argument, so its
      last positional argument is the symbol. */
  function RetryLogPath(c: Category, symbol: string, errPath: Path): Path
  {
    if c.Financial? then symbol else errPath
  }

  /** The table as written: tagged and reordered, except financial data,
      which is written as fetched. */
  function Prepare(c: Category, t: Table, symbol: string): Table
  {
    if c.Financial? then t else TagSymbol(t, symbol)
  }

  /** df.head(n): the first n rows, or all of them when there are fewer. */
  function Head<T>(s: seq<T>, n: nat): (r: seq<T>)
    ensures |r| == if |s| < n then |s| else n
    ensures r == s[..|r|]
  {
    if |s| <= n then s else s[..n]
  }

  /** The symbols a run processes: a prefix of the input, cut to `limit`
      symbols in test mode and whole otherwise. */
  function Selected(symbols: seq<string>, isTest: bool, limit: nat): (r: seq<string>)
    ensures r <= symbols
    ensures |r| == if isTest && limit < |symbols| then limit else |symbols|
  {
    if isTest then Head(symbols, limit) else symbols
  }

  /** The table written for `symbol`, or None when its wrapped fetch gave up. */
  function Written(c: Category, fetch: Fetch<Table>, symbol: string): Option<Table>
  {
    match RetryOutcome(fetch, symbol)
    case Ok(t) => Some(Prepare(c, t, symbol))
    case Raise(_) => None
  }

  /** What a symbol's final outcome does to the files: a table goes to the
      CSV file, an error to the error log. */
  function Finish(files: FileMap, c: Category, symbol: string, outcome: Outcome<Table>,
                  filePath: Path, errPath: Path, stamp: string): FileMap
  {
    match outcome
    case Ok(t) =>
      var p := Prepare(c, t, symbol);
      AfterCsvWrite(files, filePath, CsvHeader(p), CsvRows(p))
    case Raise(e) => AfterLogError(files, errPath, stamp, FailureMessage(c, symbol, e))
  }

  /** The files after handling one symbol: the retry notices, then either
      the CSV write or the failure line. */
  function CsvStep(files: FileMap, c: Category, fetch: Fetch<Table>, symbol: string,
                   filePath: Path, errPath: Path, stamp: string): FileMap
  {
    Finish(RetryFiles(files, fetch, symbol, FetcherName(c), RetryLogPath(c, symbol, errPath), stamp),
           c, symbol, RetryOutcome(fetch, symbol), filePath, errPath, stamp)
  }

  /** The files after the first n symbols of `run`, each handled by `step`
      in turn. */
  function Steps(files: FileMap, step: (FileMap, string) -> FileMap, run: seq<string>, n: nat): FileMap
    requires n <= |run|
  {
    if n == 0 then files else step(Steps(files, step, run, n - 1), run[n - 1])
  }

  /** The text `text` gives the first n symbols of `run`, in order. */
  function Texts(text: string -> string, run: seq<string>, n: nat): string
    requires n <= |run|
  {
    if n == 0 then "" else Texts(text, run, n - 1) + text(run[n - 1])
  }

  /** When every step appends its symbol's text to `path`, so do all steps. */
  lemma {:induction false} StepsAppend(files: FileMap, step: (FileMap, string) -> FileMap, run: seq<string>, n: nat,
                                       path: Path, text: string -> string)
    requires n <= |run|
    requires forall f: FileMap, k {:trigger step(f, run[k])} :: 0 <= k < n ==> Content(step(f, run[k]), path) == Content(f, path) + text(run[k])
    ensures Content(Steps(files, step, run, n), path) == Content(files, path) + Texts(text, run, n)
  {
    if n > 0 {
      var prev := Steps(files, step, run, n - 1);
      StepsAppend(files, step, run, n - 1, path, text);
      assert Content(step(prev, run[n - 1]), path) == Content(prev, path) + text(run[n - 1]);
      ConcatAssoc(Content(files, path), Texts(text, run, n - 1), text(run[n - 1]));
    }
  }

  /** One symbol's handling as a step. */
  function CsvStepper(c: Category, fetch: Fetch<Table>, filePath: Path, errPath: Path, stamp: string): (FileMap, string) -> FileMap
  {
    (f, symbol) => CsvStep(f, c, fetch, symbol, filePath, errPath, stamp)
  }

  /** The files after handling the first n symbols of `run`, in order. */
  function CsvRun(files: FileMap, c: Category, fetch: Fetch<Table>, run: seq<string>, n: nat,
                  filePath: Path, errPath: Path, stamp: string): FileMap
    requires n <= |run|
  {
    Steps(files, CsvStepper(c, fetch, filePath, errPath, stamp), run, n)
  }

  /** Every sleep of the first n symbols, in order. */
  function RunSleeps<T>(fetch: Fetch<T>, run: seq<string>, n: nat): seq<nat>
    requires n <= |run|
  {
    if n == 0 then [] else RunSleeps(fetch, run, n - 1) + RetrySleeps(fetch, run[n - 1])
  }

  /** How many times the fetcher is called for the first n symbols. */
  function RunCalls<T>(fetch: Fetch<T>, run: seq<string>, n: nat): nat
    requires n <= |run|
  {
    if n == 0 then 0 else RunCalls(fetch, run, n - 1) + Attempts(fetch, run[n - 1])
  }

  /** The tables `written` gives the first n symbols of `run`, in order. */
  function WrittenTables(written: string -> Option<Table>, run: seq<string>, n: nat): seq<Table>
    requires n <= |run|
  {
    if n == 0 then []
    else
      var w := written(run[n - 1]);
      WrittenTables(written, run, n - 1) + if w.Some? then [w.value] else []
  }

  /** The CSV row lines of those tables, in order. */
  function WrittenRows(written: string -> Option<Table>, run: seq<string>, n: nat): seq<string>
    requires n <= |run|
  {
    if n == 0 then []
    else
      var w := written(run[n - 1]);
      WrittenRows(written, run, n - 1) + if w.Some? then CsvRows(w.value) else []
  }

  /** The table a collector writes for each symbol, if any. */
  function Writer(c: Category, fetch: Fetch<Table>): string -> Option<Table>
  {
    symbol => Written(c, fetch, symbol)
  }

  /** The failure line a final outcome adds to the error log, if any. */
  function FailureLines(c: Category, symbol: string, outcome: Outcome<Table>): seq<string>
  {
    match outcome
    case Ok(_) => []
    case Raise(e) => [FailureMessage(c, symbol, e)]
  }

  /** The retry notices of one symbol that go to the error log. */
  function NoticesHere(c: Category, fetch: Fetch<Table>, symbol: string, errPath: Path): seq<string>
  {
    if c.Financial? then [] else RetryLog(fetch, symbol, FetcherName(c))
  }

  /** The lines one symbol adds to the error log: its retry notices when they
      go there, then its failure line when its fetch gave up. */
  function SymbolLog(c: Category, fetch: Fetch<Table>, symbol: string, errPath: Path): seq<string>
  {
    NoticesHere(c, fetch, symbol, errPath) + FailureLines(c, symbol, RetryOutcome(fetch, symbol))
  }

  /** The data file after a symbol's outcome: a written table creates the
      file with its header or appends its rows only; an error leaves the file
      as it was. */
  lemma FinishDataFile(files: FileMap, c: Category, symbol: string, outcome: Outcome<Table>,
                       filePath: Path, errPath: Path, stamp: string)
    requires filePath != errPath
    ensures var r := Finish(files, c, symbol, outcome, filePath, errPath, stamp);
      && (filePath in r <==> filePath in files || outcome.Ok?)
      && (outcome.Ok? && filePath in files ==>
            r[filePath] == files[filePath] + Lines(CsvRows(Prepare(c, outcome.value, symbol))))
      && (outcome.Ok? && filePath !in files ==>
            var p := Prepare(c, outcome.value, symbol); r[filePath] == Lines([CsvHeader(p)] + CsvRows(p)))
      && (outcome.Raise? ==> Content(r, filePath) == Content(files, filePath))
  {
  }

  lemma CsvStepDataFile(files: FileMap, c: Category, fetch: Fetch<Table>, symbol: string,
                        filePath: Path, errPath: Path, stamp: string)
    requires filePath != errPath && filePath != RetryLogPath(c, symbol, errPath)
    ensures DataFileChange(files, CsvStep(files, c, fetch, symbol, filePath, errPath, stamp), filePath,
                           Written(c, fetch, symbol))
  {
    var logPath := RetryLogPath(c, symbol, errPath);
    var logged := RetryFiles(files, fetch, symbol, FetcherName(c), logPath, stamp);
    RetryFilesElsewhere(files, fetch, symbol, FetcherName(c), logPath, stamp, filePath);
    FinishDataFile(logged, c, symbol, RetryOutcome(fetch, symbol), filePath, errPath, stamp);
  }

  /** The data file, relative to its state `files` before a run, after the
      tables `written` with row lines `rows` were written: an existing file
      keeps its content and gains the rows; an absent one was created by the
      first table, so its header appears once, on top; with nothing written
      an absent file is still absent. */
  predicate DataFileShape(files: FileMap, now: FileMap, filePath: Path, written: seq<Table>, rows: seq<string>)
  {
    && (filePath in now <==> filePath in files || |written| > 0)
    && (filePath in files ==> now[filePath] == files[filePath] + Lines(rows))
    && (filePath !in files && |written| > 0 ==> now[filePath] == Lines([CsvHeader(written[0])] + rows))
    && (|written| == 0 ==> rows == [])
  }

  /** How one symbol's table `w` changes the data file from `prev` to `next`. */
  predicate DataFileChange(prev: FileMap, next: FileMap, filePath: Path, w: Option<Table>)
  {
    && (filePath in next <==> filePath in prev || w.Some?)
    && (w.Some? && filePath in prev ==> next[filePath] == prev[filePath] + Lines(CsvRows(w.value)))
    && (w.Some? && filePath !in prev ==> next[filePath] == Lines([CsvHeader(w.value)] + CsvRows(w.value)))
    && (w.None? ==> Content(next, filePath) == Content(prev, filePath))
  }

  /** One more symbol's change keeps the data file in its run shape. */
  lemma DataFileStep(files: FileMap, prev: FileMap, next: FileMap, filePath: Path, w: Option<Table>,
                     written: seq<Table>, rows: seq<string>)
    requires DataFileShape(files, prev, filePath, written, rows)
    requires DataFileChange(prev, next, filePath, w)
    ensures DataFileShape(files, next, filePath,
                          written + (if w.Some? then [w.value] else []), rows + (if w.Some? then CsvRows(w.value) else []))
  {
    if w.Some? {
      var added := CsvRows(w.value);
      TerminatedAppend(rows, added, "\n");
      if filePath in files {
        ConcatAssoc(files[filePath], Lines(rows), Lines(added));
      } else if |written| > 0 {
        var header := CsvHeader(written[0]);
        TerminatedAppend([header] + rows, added, "\n");
        assert [header] + rows + added == [header] + (rows + added);
        assert (written + [w.value])[0] == written[0];
      } else {
        assert rows + added == added;
      }
    } else {
      assert written + [] == written && rows + [] == rows;
    }
  }

  /** When every step changes the data file by its symbol's table, all
      steps together leave it in the run shape of those tables. */
  lemma {:induction false} StepsDataFile(files: FileMap, step: (FileMap, string) -> FileMap,
                                         written: string -> Option<Table>, run: seq<string>, n: nat, filePath: Path)
    requires n <= |run|
    requires forall f: FileMap, k {:trigger step(f, run[k])} :: 0 <= k < n ==>
               DataFileChange(f, step(f, run[k]), filePath, written(run[k]))
    ensures DataFileShape(files, Steps(files, step, run, n), filePath, WrittenTables(written, run, n), WrittenRows(written, run, n))
  {
    if n > 0 {
      var prev := Steps(files, step, run, n - 1);
      StepsDataFile(files, step, written, run, n - 1, filePath);
      assert DataFileChange(prev, step(prev, run[n - 1]), filePath, written(run[n - 1]));
      DataFileStep(files, prev, step(prev, run[n - 1]), filePath, written(run[n - 1]),
                   WrittenTables(written, run, n - 1), WrittenRows(written, run, n - 1));
    }
  }

  /** The data file after the first n symbols of a run: every written row in
      symbol order after the old content, or after the header of the first
      written table when the run created the file. */
  lemma CsvRunDataFile(files: FileMap, c: Category, fetch: Fetch<Table>, run: seq<string>, n: nat,
                       filePath: Path, errPath: Path, stamp: string)
    requires n <= |run| && filePath != errPath
    requires c.Financial? ==> filePath !in run
    ensures DataFileShape(files, CsvRun(files, c, fetch, run, n, filePath, errPath, stamp), filePath,
                          WrittenTables(Writer(c, fetch), run, n), WrittenRows(Writer(c, fetch), run, n))
  {
    var step := CsvStepper(c, fetch, filePath, errPath, stamp);
    var written := Writer(c, fetch);
    forall f: FileMap, k | 0 <= k < n
      ensures DataFileChange(f, step(f, run[k]), filePath, written(run[k]))
    {
      assert run[k] in run;
      CsvStepDataFile(f, c, fetch, run[k], filePath, errPath, stamp);
    }
    StepsDataFile(files, step, written, run, n, filePath);
  }

  /** The error log after a symbol's outcome: its failure line, if any. */
  lemma FinishErrorLog(files: FileMap, c: Category, symbol: string, outcome: Outcome<Table>,
                       filePath: Path, errPath: Path, stamp: string)
    requires filePath != errPath
    ensures Content(Finish(files, c, symbol, outcome, filePath, errPath, stamp), errPath)
         == Content(files, errPath) + LogText(stamp, FailureLines(c, symbol, outcome))
  {
    if outcome.Raise? {
      LogTextSingle(stamp, FailureMessage(c, symbol, outcome.error));
    }
  }

  /** The error log after one symbol: its retry notices when they go there,
      then its failure line when its fetch gave up. */
  lemma CsvStepErrorLog(files: FileMap, c: Category, fetch: Fetch<Table>, symbol: string,
                        filePath: Path, errPath: Path, stamp: string)
    requires filePath != errPath && (c.Financial? ==> symbol != errPath)
    ensures Content(CsvStep(files, c, fetch, symbol, filePath, errPath, stamp), errPath)
         == Content(files, errPath) + LogText(stamp, SymbolLog(c, fetch, symbol, errPath))
  {
    var logPath := RetryLogPath(c, symbol, errPath);
    var logged := RetryFiles(files, fetch, symbol, FetcherName(c), logPath, stamp);
    var here := NoticesHere(c, fetch, symbol, errPath);
    var failed := FailureLines(c, symbol, RetryOutcome(fetch, symbol));
    if !c.Financial? {
      RetryFilesLog(files, fetch, symbol, FetcherName(c), errPath, stamp);
    } else {
      RetryFilesElsewhere(files, fetch, symbol, FetcherName(c), logPath, stamp, errPath);
      assert Content(files, errPath) + LogText(stamp, here) == Content(files, errPath);
    }
    FinishErrorLog(logged, c, symbol, RetryOutcome(fetch, symbol), filePath, errPath, stamp);
    LogTextAppend(stamp, here, failed);
    ConcatAssoc(Content(files, errPath), LogText(stamp, here), LogText(stamp, failed));
  }

  /** The text each symbol adds to the error log. */
  function SymbolTexter(c: Category, fetch: Fetch<Table>, errPath: Path, stamp: string): string -> string
  {
    symbol => LogText(stamp, SymbolLog(c, fetch, symbol, errPath))
  }

  /** The error log after the first n symbols: its old content, then every
      symbol's lines in symbol order. */
  lemma CsvRunErrorLog(files: FileMap, c: Category, fetch: Fetch<Table>, run: seq<string>, n: nat,
                       filePath: Path, errPath: Path, stamp: string)
    requires n <= |run| && filePath != errPath && (c.Financial? ==> errPath !in run)
    ensures Content(CsvRun(files, c, fetch, run, n, filePath, errPath, stamp), errPath)
         == Content(files, errPath) + Texts(SymbolTexter(c, fetch, errPath, stamp), run, n)
  {
    var step := CsvStepper(c, fetch, filePath, errPath, stamp);
    var text := SymbolTexter(c, fetch, errPath, stamp);
    forall f: FileMap, k | 0 <= k < n
      ensures Content(step(f, run[k]), errPath) == Content(f, errPath) + text(run[k])
    {
      assert run[k] in run;
      CsvStepErrorLog(f, c, fetch, run[k], filePath, errPath, stamp);
    }
    StepsAppend(files, step, run, n, errPath, text);
  }

  /** get_financial_data passes the error-log path by keyword, so the retry
      notices of fetch_with_retry land in the file named by the symbol and
      the error log only ever gets the failure line. */
  lemma FinancialNoticesGoToSymbol(files: FileMap, fetcher: string, fetch: Fetch<Table>, symbol: string,
                                   filePath: Path, errPath: Path, stamp: string)
    requires symbol != filePath && symbol != errPath
    ensures Content(CsvStep(files, Financial(fetcher), fetch, symbol, filePath, errPath, stamp), symbol)
         == Content(files, symbol) + LogText(stamp, RetryLog(fetch, symbol, "fetch_with_retry"))
    ensures SymbolLog(Financial(fetcher), fetch, symbol, errPath)
         == FailureLines(Financial(fetcher), symbol, RetryOutcome(fetch, symbol))
  {
    var c := Financial(fetcher);
    assert RetryLogPath(c, symbol, errPath) == symbol && FetcherName(c) == "fetch_with_retry";
    var logged := RetryFiles(files, fetch, symbol, "fetch_with_retry", symbol, stamp);
    assert CsvStep(files, c, fetch, symbol, filePath, errPath, stamp)
        == Finish(logged, c, symbol, RetryOutcome(fetch, symbol), filePath, errPath, stamp);
    RetryFilesLog(files, fetch, symbol, "fetch_with_retry", symbol, stamp);
    FinishElsewhere(logged, c, symbol, RetryOutcome(fetch, symbol), filePath, errPath, stamp, symbol);
  }

  /** A symbol's outcome touches only the CSV file and the error log. */
  lemma FinishElsewhere(files: FileMap, c: Category, symbol: string, outcome: Outcome<Table>,
                        filePath: Path, errPath: Path, stamp: string, q: Path)
    requires q != filePath && q != errPath
    ensures q in Finish(files, c, symbol, outcome, filePath, errPath, stamp) <==> q in files
    ensures Content(Finish(files, c, symbol, outcome, filePath, errPath, stamp), q) == Content(files, q)
  {
  }

  /** Every symbol costs one to four calls, and every call but each
      symbol's first is preceded by one sleep. */
  lemma {:induction false} RunCallsBounds<T>(fetch: Fetch<T>, run: seq<string>, n: nat)
    requires n <= |run|
    ensures n <= RunCalls(fetch, run, n) <= MaxAttempts * n
    ensures |RunSleeps(fetch, run, n)| == RunCalls(fetch, run, n) - n
  {
    if n > 0 {
      RunCallsBounds(fetch, run, n - 1);
    }
  }

  /** With its retry notices in the error log, every call for a symbol that
      did not produce its table left exactly one line there: a notice after
      each of the first three failures, a failure line after the fourth. */
  lemma SymbolLogCount(c: Category, fetch: Fetch<Table>, symbol: string, errPath: Path)
    requires !c.Financial?
    ensures |SymbolLog(c, fetch, symbol, errPath)| + (if Written(c, fetch, symbol).Some? then 1 else 0)
         == Attempts(fetch, symbol)
  {
  }

  /** The loop body: fetch symbol i with retries, then write or log; the
      fetch calls and sleeps are added to the running totals. */
  method CollectOne(disk: Disk, c: Category, run: seq<string>, i: nat, filePath: Path, errPath: Path,
                    fetch: Fetch<Table>, stamp: string, calls: nat, sleeps: seq<nat>, ghost start: FileMap)
      returns (calls': nat, sleeps': seq<nat>)
    requires i < |run|
    requires disk.files == CsvRun(start, c, fetch, run, i, filePath, errPath, stamp)
    requires calls == RunCalls(fetch, run, i) && sleeps == RunSleeps(fetch, run, i)
    modifies disk
    ensures disk.files == CsvRun(start, c, fetch, run, i + 1, filePath, errPath, stamp)
    ensures calls' == RunCalls(fetch, run, i + 1) && sleeps' == RunSleeps(fetch, run, i + 1)
  {
    var symbol := run[i];
    ghost var before := disk.files;
    var outcome, made, waited := RetryOnError(disk, fetch, symbol, FetcherName(c), RetryLogPath(c, symbol, errPath), stamp);
    calls' := calls + made;
    sleeps' := sleeps + waited;
    FinishSymbol(disk, c, symbol, outcome, filePath, errPath, stamp);
    assert disk.files == CsvStepper(c, fetch, filePath, errPath, stamp)(before, symbol);
  }

  /** A symbol's final outcome: the table goes to the CSV file, the error to
      the error log. */
  method FinishSymbol(disk: Disk, c: Category, symbol: string, outcome: Outcome<Table>,
                      filePath: Path, errPath: Path, stamp: string)
    modifies disk
    ensures disk.files == Finish(old(disk.files), c, symbol, outcome, filePath, errPath, stamp)
  {
    match outcome {
      case Ok(t) =>
        var p := Prepare(c, t, symbol);
        disk.WriteOrAppendCsv(filePath, CsvHeader(p), CsvRows(p));
      case Raise(e) =>
        disk.LogError(errPath, stamp, FailureMessage(c, symbol, e));
    }
  }

  /** The loop shared by the CSV collectors: every selected symbol, in order,
      each handled on its own. */
  method Collect(disk: Disk, c: Category, symbols: seq<string>, filePath: Path, errPath: Path,
                 fetch: Fetch<Table>, stamp: string, isTest: bool) returns (calls: nat, sleeps: seq<nat>)
    modifies disk
    ensures var run := Selected(symbols, isTest, TestLimit(c));
      && disk.files == CsvRun(old(disk.files), c, fetch, run, |run|, filePath, errPath, stamp)
      && calls == RunCalls(fetch, run, |run|)
      && sleeps == RunSleeps(fetch, run, |run|)
  {
    var run := Selected(symbols, isTest, TestLimit(c));
    calls, sleeps := 0, [];
    var i := 0;
    while i < |run|
      invariant 0 <= i <= |run|
      invariant disk.files == CsvRun(old(disk.files), c, fetch, run, i, filePath, errPath, stamp)
      invariant calls == RunCalls(fetch, run, i)
      invariant sleeps == RunSleeps(fetch, run, i)
    {
      calls, sleeps := CollectOne(disk, c, run, i, filePath, errPath, fetch, stamp, calls, sleeps, old(disk.files));
      i := i + 1;
    }
  }

  method GetOfficers(disk: Disk, symbols: seq<string>, filePath: Path, errPath: Path,
                     fetch: Fetch<Table>, stamp: string, isTest: bool) returns (calls: nat, sleeps: seq<nat>)
    modifies disk
    ensures var run := Selected(symbols, isTest, 10);
      && disk.files == CsvRun(old(disk.files), Officers, fetch, run, |run|, filePath, errPath, stamp)
      && calls == RunCalls(fetch, run, |run|) && sleeps == RunSleeps(fetch, run, |run|)
  {
    calls, sleeps := Collect(disk, Officers, symbols, filePath, errPath, fetch, stamp, isTest);
  }

  method GetShareholders(disk: Disk, symbols: seq<string>, filePath: Path, errPath: Path,
                         fetch: Fetch<Table>, stamp: string, isTest: bool) returns (calls: nat, sleeps: seq<nat>)
    modifies disk
    ensures var run := Selected(symbols, isTest, 10);
      && disk.files == CsvRun(old(disk.files), Shareholders, fetch, run, |run|, filePath, errPath, stamp)
      && calls == RunCalls(fetch, run, |run|) && sleeps == RunSleeps(fetch, run, |run|)
  {
    calls, sleeps := Collect(disk, Shareholders, symbols, filePath, errPath, fetch, stamp, isTest);
  }

  method GetDividends(disk: Disk, symbols: seq<string>, filePath: Path, errPath: Path,
                      fetch: Fetch<Table>, stamp: string, isTest: bool) returns (calls: nat, sleeps: seq<nat>)
    modifies disk
    ensures var run := Selected(symbols, isTest, 10);
      && disk.files == CsvRun(old(disk.files), Dividends, fetch, run, |run|, filePath, errPath, stamp)
      && calls == RunCalls(fetch, run, |run|) && sleeps == RunSleeps(fetch, run, |run|)
  {
    calls, sleeps := Collect(disk, Dividends, symbols, filePath, errPath, fetch, stamp, isTest);
  }

  /** The quote provider: symbol, start date, end date, attempt. */
  type QuoteSource = (string, string, string, nat) -> Outcome<Table>

  function QuoteFetch(quotes: QuoteSource, startDate: string, endDate: string): Fetch<Table>
  {
    (symbol, attempt) => quotes(symbol, startDate, endDate, attempt)
  }

  /** end_date defaults to today's date, taken once per run. */
  function EndDate(endDate: Option<string>, today: string): string
  {
    if endDate.Some? then endDate.value else today
  }

  method GetStockQuoteHistory(disk: Disk, symbols: seq<string>, filePath: Path, errPath: Path,
                              quotes: QuoteSource, startDate: string, endDate: Option<string>, today: string,
                              stamp: string, isTest: bool) returns (calls: nat, sleeps: seq<nat>)
    modifies disk
    ensures var run := Selected(symbols, isTest, 3);
      var fetch := QuoteFetch(quotes, startDate, EndDate(endDate, today));
      && disk.files == CsvRun(old(disk.files), QuoteHistory, fetch, run, |run|, filePath, errPath, stamp)
      && calls == RunCalls(fetch, run, |run|) && sleeps == RunSleeps(fetch, run, |run|)
  {
    calls, sleeps := Collect(disk, QuoteHistory, symbols, filePath, errPath,
                             QuoteFetch(quotes, startDate, EndDate(endDate, today)), stamp, isTest);
  }

  /** A statement function applied by fetch_with_retry: symbol, period, attempt. */
  type FinanceSource = (string, string, nat) -> Outcome<Table>

  function FinanceFetch(finance: FinanceSource, periodType: string): Fetch<Table>
  {
    (symbol, attempt) => finance(symbol, periodType, attempt)
  }

  method GetFinancialData(disk: Disk, fetcher: string, finance: FinanceSource, symbols: seq<string>,
                          filePath: Path, errPath: Path, periodType: string, stamp: string, isTest: bool)
    returns (calls: nat, sleeps: seq<nat>)
    modifies disk
    ensures var run := Selected(symbols, isTest, 10);
      var fetch := FinanceFetch(finance, periodType);
      && disk.files == CsvRun(old(disk.files), Financial(fetcher), fetch, run, |run|, filePath, errPath, stamp)
      && calls == RunCalls(fetch, run, |run|) && sleeps == RunSleeps(fetch, run, |run|)
  {
    calls, sleeps := Collect(disk, Financial(fetcher), symbols, filePath, errPath, FinanceFetch(finance, periodType), stamp, isTest);
  }

  /** The four statement kinds with a front end each. */
  datatype Statement = IncomeStatement | BalanceSheet | CashFlow | Ratio

  /** The provider's statements: kind, symbol, period, attempt. */
  type StatementSource = (Statement, string, string, nat) -> Outcome<Table>

  function StatementFetch(statements: StatementSource, kind: Statement): FinanceSource
  {
    (symbol, period, attempt) => statements(kind, symbol, period, attempt)
  }

  function PeriodType(quarter: bool): string
  {
    if quarter then "quarter" else "year"
  }

  /** The name Python gives a lambda, which the failure lines print. */
  const LambdaName: string := "<lambda>"

  /** get_income_statement, get_balance_sheet, get_cash_flow and get_ratio. */
  method GetStatement(disk: Disk, kind: Statement, statements: StatementSource, symbols: seq<string>,
                      filePath: Path, errPath: Path, quarter: bool, stamp: string, isTest: bool)
    returns (calls: nat, sleeps: seq<nat>)
    modifies disk
    ensures var run := Selected(symbols, isTest, 10);
      var fetch := FinanceFetch(StatementFetch(statements, kind), PeriodType(quarter));
      && disk.files == CsvRun(old(disk.files), Financial(LambdaName), fetch, run, |run|, filePath, errPath, stamp)
      && calls == RunCalls(fetch, run, |run|) && sleeps == RunSleeps(fetch, run, |run|)
  {
    calls, sleeps := GetFinancialData(disk, LambdaName, StatementFetch(statements, kind), symbols,
                                      filePath, errPath, PeriodType(quarter), stamp, isTest);
  }
}
