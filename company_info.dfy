/** get_company_info: the one collector that writes a JSON array. It opens
    the array with init_json_file, appends each fetched company object with
    append_json (closing the array at the last symbol), logs each symbol that
    failed, and finally appends a "]" whatever happened before. */
module CompanyInfo {
  import opened Outcomes
  import opened Text
  import opened Files
  import opened Retry
  import opened JsonArray
  import Collectors

  /** The __name__ of the wrapped fetcher, as the retry notices print it. */
  const InfoFetcher: string := "fetch_company_info"

  /** head(10) in test mode. */
  const InfoTestLimit: nat := 10

  /** The line logged when a symbol failed. */
  function InfoFailure(symbol: string, error: string): string
  {
    "Error fetching data for " + symbol + ": " + error
  }

  /** is_last: the symbol's position is the last one of the run. */
  function IsLast(run: seq<string>, i: nat): bool
    requires i < |run|
  {
    i == |run| - 1
  }

  /** The files after symbol i: the retry notices go to the error log (its
      path is the last positional argument), then the object is appended to
      the array; a failed fetch, or an append_json that raised, is logged. */
  function InfoStep(files: FileMap, fetch: Fetch<string>, run: seq<string>, i: nat,
                    filePath: Path, errPath: Path, stamp: string): FileMap
    requires i < |run|
  {
    var symbol := run[i];
    var logged := RetryFiles(files, fetch, symbol, InfoFetcher, errPath, stamp);
    match RetryOutcome(fetch, symbol)
    case Ok(obj) =>
      (match AfterAppendJson(logged, filePath, obj, IsLast(run, i))
       case Ok(next) => next
       case Raise(e) => AfterLogError(logged, errPath, stamp, InfoFailure(symbol, e)))
    case Raise(e) => AfterLogError(logged, errPath, stamp, InfoFailure(symbol, e))
  }

  /** The files after `step` has handled positions 0 to n - 1 in turn. */
  function Walk(files: FileMap, step: (FileMap, nat) -> FileMap, n: nat): FileMap
  {
    if n == 0 then files else step(Walk(files, step, n - 1), n - 1)
  }

  /** Handling position i of the run as a step (positions past the end
      change nothing). */
  function InfoStepper(fetch: Fetch<string>, run: seq<string>, filePath: Path, errPath: Path, stamp: string)
    : (FileMap, nat) -> FileMap
  {
    (f: FileMap, i: nat) => if i < |run| then InfoStep(f, fetch, run, i, filePath, errPath, stamp) else f
  }

  /** The files after the first n symbols of the run. */
  function InfoRun(files: FileMap, fetch: Fetch<string>, run: seq<string>, n: nat,
                   filePath: Path, errPath: Path, stamp: string): FileMap
    requires n <= |run|
  {
    Walk(files, InfoStepper(fetch, run, filePath, errPath, stamp), n)
  }

  /** The whole of get_company_info on the file map: open the array, handle
      every symbol, append "]". */
  function CompanyInfoFiles(files: FileMap, fetch: Fetch<string>, run: seq<string>,
                            filePath: Path, errPath: Path, stamp: string): FileMap
  {
    AppendText(InfoRun(AfterInitJson(files, filePath), fetch, run, |run|, filePath, errPath, stamp), filePath, "]")
  }

  // ------------------------------------------------------------ the JSON array

  /** The array after symbol i, when append_json can continue from `a`. */
  function NextState(a: ArrayFile, fetch: Fetch<string>, run: seq<string>, i: nat): ArrayFile
    requires i < |run|
  {
    match RetryOutcome(fetch, run[i])
    case Ok(obj) => Push(a, obj, IsLast(run, i))
    case Raise(_) => a
  }

  /** The array after the first n symbols, starting from `a`. */
  function InfoState(a: ArrayFile, fetch: Fetch<string>, run: seq<string>, n: nat): ArrayFile
    requires n <= |run|
  {
    if n == 0 then a else NextState(InfoState(a, fetch, run, n - 1), fetch, run, n - 1)
  }

  /** The objects fetched for the first n symbols, in order. */
  function InfoObjects(fetch: Fetch<string>, run: seq<string>, n: nat): seq<string>
    requires n <= |run|
  {
    if n == 0 then []
    else InfoObjects(fetch, run, n - 1) + match RetryOutcome(fetch, run[n - 1]) case Ok(obj) => [obj] case Raise(_) => []
  }

  /** The lines one symbol adds to the error log while the array is intact:
      its retry notices, then its failure line if its fetch gave up. */
  function InfoLog(fetch: Fetch<string>, symbol: string): seq<string>
  {
    RetryLog(fetch, symbol, InfoFetcher)
      + match RetryOutcome(fetch, symbol) case Ok(_) => [] case Raise(e) => [InfoFailure(symbol, e)]
  }

  /** The text the first n symbols add to the error log, in symbol order. */
  function InfoText(fetch: Fetch<string>, run: seq<string>, n: nat, stamp: string): string
    requires n <= |run|
  {
    if n == 0 then "" else InfoText(fetch, run, n - 1, stamp) + LogText(stamp, InfoLog(fetch, run[n - 1]))
  }

  /** The array state after n symbols holds the old objects and then every
      fetched one in order; it is closed exactly when the last symbol of the
      run was fetched, or, with nothing fetched, when it was closed before. */
  lemma {:induction false} InfoStateShape(a: ArrayFile, fetch: Fetch<string>, run: seq<string>, n: nat)
    requires n <= |run|
    ensures InfoState(a, fetch, run, n).objs == a.objs + InfoObjects(fetch, run, n)
    ensures InfoState(a, fetch, run, n).Closed? <==>
      if |InfoObjects(fetch, run, n)| == 0 then a.Closed?
      else n == |run| && RetryOutcome(fetch, run[n - 1]).Ok?
    ensures Resumable(a) ==> Resumable(InfoState(a, fetch, run, n))
  {
    if n > 0 {
      InfoStateShape(a, fetch, run, n - 1);
      var prev := InfoState(a, fetch, run, n - 1);
      if RetryOutcome(fetch, run[n - 1]).Ok? {
        assert a.objs + InfoObjects(fetch, run, n - 1) + [RetryOutcome(fetch, run[n - 1]).value]
            == a.objs + InfoObjects(fetch, run, n);
      } else {
        assert InfoObjects(fetch, run, n) == InfoObjects(fetch, run, n - 1);
      }
    }
  }

  /** While the array file renders a resumable state, one symbol moves it to
      the next state and adds that symbol's lines to the error log. */
  lemma InfoStepOnState(files: FileMap, fetch: Fetch<string>, run: seq<string>, i: nat,
                        filePath: Path, errPath: Path, stamp: string, a: ArrayFile)
    requires i < |run| && filePath != errPath
    requires filePath in files && files[filePath] == Render(a) && Resumable(a)
    ensures var next := InfoStep(files, fetch, run, i, filePath, errPath, stamp);
      && filePath in next && next[filePath] == Render(NextState(a, fetch, run, i))
      && Content(next, errPath) == Content(files, errPath) + LogText(stamp, InfoLog(fetch, run[i]))
  {
    var symbol := run[i];
    var logged := RetryFiles(files, fetch, symbol, InfoFetcher, errPath, stamp);
    var notices := RetryLog(fetch, symbol, InfoFetcher);
    RetryFilesElsewhere(files, fetch, symbol, InfoFetcher, errPath, stamp, filePath);
    RetryFilesLog(files, fetch, symbol, InfoFetcher, errPath, stamp);
    assert Existing(logged, filePath) == Some(Render(a));
    match RetryOutcome(fetch, symbol) {
      case Ok(obj) =>
        AppendJsonOnState(a, obj, IsLast(run, i));
        assert InfoLog(fetch, symbol) == notices;
      case Raise(e) =>
        var failure := InfoFailure(symbol, e);
        LogTextSingle(stamp, failure);
        LogTextAppend(stamp, notices, [failure]);
        ConcatAssoc(Content(files, errPath), LogText(stamp, notices), LogLine(stamp, failure));
    }
  }

  /** The step of InfoRunOnState: from the files after k symbols to the
      files after k + 1. */
  lemma InfoStepKeeps(files: FileMap, f: FileMap, fetch: Fetch<string>, run: seq<string>, k: nat,
                      filePath: Path, errPath: Path, stamp: string, a: ArrayFile)
    requires k < |run| && filePath != errPath && Resumable(a)
    requires filePath in f && f[filePath] == Render(InfoState(a, fetch, run, k))
    requires Content(f, errPath) == Content(files, errPath) + InfoText(fetch, run, k, stamp)
    ensures var next := InfoStepper(fetch, run, filePath, errPath, stamp)(f, k);
      && filePath in next && next[filePath] == Render(InfoState(a, fetch, run, k + 1))
      && Content(next, errPath) == Content(files, errPath) + InfoText(fetch, run, k + 1, stamp)
  {
    var state := InfoState(a, fetch, run, k);
    InfoStateShape(a, fetch, run, k);
    InfoStepOnState(f, fetch, run, k, filePath, errPath, stamp, state);
    ConcatAssoc(Content(files, errPath), InfoText(fetch, run, k, stamp), LogText(stamp, InfoLog(fetch, run[k])));
  }

  /** Any step that keeps the JSON file rendering the run's states and the
      error log gaining the run's text keeps them over the whole walk. */
  lemma {:induction false} WalkOnState(files: FileMap, step: (FileMap, nat) -> FileMap, fetch: Fetch<string>,
                                       run: seq<string>, n: nat, filePath: Path, errPath: Path, stamp: string, a: ArrayFile)
    requires n <= |run|
    requires filePath in files && files[filePath] == Render(a)
    requires forall f: FileMap, k: nat {:trigger step(f, k)} ::
      k < n && filePath in f && f[filePath] == Render(InfoState(a, fetch, run, k))
        && Content(f, errPath) == Content(files, errPath) + InfoText(fetch, run, k, stamp) ==>
      filePath in step(f, k) && step(f, k)[filePath] == Render(InfoState(a, fetch, run, k + 1))
        && Content(step(f, k), errPath) == Content(files, errPath) + InfoText(fetch, run, k + 1, stamp)
    ensures var now := Walk(files, step, n);
      && filePath in now && now[filePath] == Render(InfoState(a, fetch, run, n))
      && Content(now, errPath) == Content(files, errPath) + InfoText(fetch, run, n, stamp)
  {
    if n > 0 {
      WalkOnState(files, step, fetch, run, n - 1, filePath, errPath, stamp, a);
      var prev := Walk(files, step, n - 1);
      assert filePath in step(prev, n - 1);
    } else {
      assert Content(files, errPath) + "" == Content(files, errPath);
    }
  }

  /** Over the first n symbols from a resumable array file: the file renders
      the state the fetched objects lead to, and the error log gains each
      symbol's lines in symbol order. */
  lemma InfoRunOnState(files: FileMap, fetch: Fetch<string>, run: seq<string>, n: nat,
                       filePath: Path, errPath: Path, stamp: string, a: ArrayFile)
    requires n <= |run| && filePath != errPath
    requires filePath in files && files[filePath] == Render(a) && Resumable(a)
    ensures var now := InfoRun(files, fetch, run, n, filePath, errPath, stamp);
      && filePath in now && now[filePath] == Render(InfoState(a, fetch, run, n))
      && Content(now, errPath) == Content(files, errPath) + InfoText(fetch, run, n, stamp)
  {
    var step := InfoStepper(fetch, run, filePath, errPath, stamp);
    forall f: FileMap, k: nat | k < n && filePath in f && f[filePath] == Render(InfoState(a, fetch, run, k))
                                && Content(f, errPath) == Content(files, errPath) + InfoText(fetch, run, k, stamp)
      ensures filePath in step(f, k) && step(f, k)[filePath] == Render(InfoState(a, fetch, run, k + 1))
        && Content(step(f, k), errPath) == Content(files, errPath) + InfoText(fetch, run, k + 1, stamp)
    {
      InfoStepKeeps(files, f, fetch, run, k, filePath, errPath, stamp, a);
    }
    WalkOnState(files, step, fetch, run, n, filePath, errPath, stamp, a);
  }

  /** The state get_company_info starts from: the existing array, or the
      "[" that init_json_file writes. */
  function StartState(files: FileMap, filePath: Path, a: ArrayFile): ArrayFile
  {
    if filePath in files then a else Open([])
  }

  /** The JSON file after get_company_info, when it starts absent or as a
      resumable array: the rendered final state followed by the extra "]";
      the error log gains every symbol's lines in order. */
  lemma CompanyInfoOnState(files: FileMap, fetch: Fetch<string>, run: seq<string>,
                           filePath: Path, errPath: Path, stamp: string, a: ArrayFile)
    requires filePath != errPath
    requires filePath in files ==> files[filePath] == Render(a) && Resumable(a)
    ensures var r := CompanyInfoFiles(files, fetch, run, filePath, errPath, stamp);
      && filePath in r && r[filePath] == Render(InfoState(StartState(files, filePath, a), fetch, run, |run|)) + "]"
      && Content(r, errPath) == Content(files, errPath) + InfoText(fetch, run, |run|, stamp)
  {
    var initial := AfterInitJson(files, filePath);
    var start := StartState(files, filePath, a);
    assert initial[filePath] == Render(start) && Resumable(start);
    InfoRunOnState(initial, fetch, run, |run|, filePath, errPath, stamp, start);
  }

  /** From an absent file, with no object fetched: the file is "[]". */
  lemma CompanyInfoNoObjects(files: FileMap, fetch: Fetch<string>, run: seq<string>,
                             filePath: Path, errPath: Path, stamp: string)
    requires filePath != errPath && filePath !in files
    requires |InfoObjects(fetch, run, |run|)| == 0
    ensures CompanyInfoFiles(files, fetch, run, filePath, errPath, stamp)[filePath] == "[]"
  {
    CompanyInfoOnState(files, fetch, run, filePath, errPath, stamp, Open([]));
    InfoStateShape(Open([]), fetch, run, |run|);
    assert InfoState(Open([]), fetch, run, |run|) == Open([]);
  }

  /** From an absent file, when the last symbol's object was fetched: the
      array is closed by append_json and then gets a second "]". */
  lemma CompanyInfoDoubleClose(files: FileMap, fetch: Fetch<string>, run: seq<string>,
                               filePath: Path, errPath: Path, stamp: string)
    requires filePath != errPath && filePath !in files
    requires |run| > 0 && RetryOutcome(fetch, run[|run| - 1]).Ok?
    ensures var objs := InfoObjects(fetch, run, |run|);
      CompanyInfoFiles(files, fetch, run, filePath, errPath, stamp)[filePath] == "[" + Join(objs, Separator) + "]" + "]"
  {
    var objs := InfoObjects(fetch, run, |run|);
    var state := InfoState(Open([]), fetch, run, |run|);
    CompanyInfoOnState(files, fetch, run, filePath, errPath, stamp, Open([]));
    InfoStateShape(Open([]), fetch, run, |run|);
    assert |objs| > 0;
    assert state.objs == objs;
    assert state == Closed(objs);
  }

  /** From an absent file, when the last symbol failed: the open array gets
      its "]" from the final write, after the separator of the last object. */
  lemma CompanyInfoLastFailed(files: FileMap, fetch: Fetch<string>, run: seq<string>,
                              filePath: Path, errPath: Path, stamp: string)
    requires filePath != errPath && filePath !in files
    requires |run| > 0 && RetryOutcome(fetch, run[|run| - 1]).Raise?
    ensures var objs := InfoObjects(fetch, run, |run|);
      CompanyInfoFiles(files, fetch, run, filePath, errPath, stamp)[filePath] == "[" + Terminated(objs, Separator) + "]"
  {
    var objs := InfoObjects(fetch, run, |run|);
    var state := InfoState(Open([]), fetch, run, |run|);
    CompanyInfoOnState(files, fetch, run, filePath, errPath, stamp, Open([]));
    InfoStateShape(Open([]), fetch, run, |run|);
    assert state.objs == objs;
    assert state == Open(objs);
  }

  /** From a complete array, when no object is fetched: the file is the old
      array followed by a second "]". */
  lemma CompanyInfoClosedNoObjects(files: FileMap, fetch: Fetch<string>, run: seq<string>,
                                   filePath: Path, errPath: Path, stamp: string, objs: seq<string>)
    requires filePath != errPath && |objs| > 0
    requires filePath in files && files[filePath] == Render(Closed(objs))
    requires |InfoObjects(fetch, run, |run|)| == 0
    ensures CompanyInfoFiles(files, fetch, run, filePath, errPath, stamp)[filePath] == "[" + Join(objs, Separator) + "]" + "]"
  {
    CompanyInfoOnState(files, fetch, run, filePath, errPath, stamp, Closed(objs));
    InfoStateShape(Closed(objs), fetch, run, |run|);
    assert InfoState(Closed(objs), fetch, run, |run|) == Closed(objs);
  }

  // ------------------------------------------------------------ the method

  /** The loop body: fetch symbol i with retries, then append its object or
      log the failure; calls and sleeps are added to the running totals. */
  method InfoOne(disk: Disk, run: seq<string>, i: nat, filePath: Path, errPath: Path,
                 fetch: Fetch<string>, stamp: string, calls: nat, sleeps: seq<nat>, ghost start: FileMap)
      returns (calls': nat, sleeps': seq<nat>)
    requires i < |run|
    requires disk.files == InfoRun(start, fetch, run, i, filePath, errPath, stamp)
    requires calls == Collectors.RunCalls(fetch, run, i) && sleeps == Collectors.RunSleeps(fetch, run, i)
    modifies disk
    ensures disk.files == InfoRun(start, fetch, run, i + 1, filePath, errPath, stamp)
    ensures calls' == Collectors.RunCalls(fetch, run, i + 1) && sleeps' == Collectors.RunSleeps(fetch, run, i + 1)
  {
    var symbol := run[i];
    ghost var before := disk.files;
    var outcome, made, waited := RetryOnError(disk, fetch, symbol, InfoFetcher, errPath, stamp);
    calls' := calls + made;
    sleeps' := sleeps + waited;
    match outcome {
      case Ok(obj) =>
        var status := disk.AppendJson(filePath, obj, i == |run| - 1);
        if status.Raise? {
          disk.LogError(errPath, stamp, InfoFailure(symbol, status.error));
        }
      case Raise(e) =>
        disk.LogError(errPath, stamp, InfoFailure(symbol, e));
    }
    assert disk.files == InfoStep(before, fetch, run, i, filePath, errPath, stamp);
  }

  /** get_company_info. */
  method GetCompanyInfo(disk: Disk, symbols: seq<string>, filePath: Path, errPath: Path,
                        fetch: Fetch<string>, stamp: string, isTest: bool) returns (calls: nat, sleeps: seq<nat>)
    modifies disk
    ensures var run := Collectors.Selected(symbols, isTest, InfoTestLimit);
      && disk.files == CompanyInfoFiles(old(disk.files), fetch, run, filePath, errPath, stamp)
      && calls == Collectors.RunCalls(fetch, run, |run|) && sleeps == Collectors.RunSleeps(fetch, run, |run|)
  {
    var run := Collectors.Selected(symbols, isTest, InfoTestLimit);
    disk.InitJsonFile(filePath);
    ghost var initial := disk.files;
    calls, sleeps := 0, [];
    var i := 0;
    while i < |run|
      invariant 0 <= i <= |run|
      invariant disk.files == InfoRun(initial, fetch, run, i, filePath, errPath, stamp)
      invariant calls == Collectors.RunCalls(fetch, run, i) && sleeps == Collectors.RunSleeps(fetch, run, i)
    {
      calls, sleeps := InfoOne(disk, run, i, filePath, errPath, fetch, stamp, calls, sleeps, initial);
      i := i + 1;
    }
    disk.AppendRaw(filePath, "]");
  }
}
