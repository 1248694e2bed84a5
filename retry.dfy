/** retry_on_error: up to four calls of a fetcher, sleeping 10, 30 and 60
    seconds before the second, third and fourth, and logging "Retry k" after
    each of the first three failures to the path given as the last
    positional argument. */
module Retry {
  import opened Outcomes
  import opened Text
  import opened Files

  /** A fetcher as the wrapper sees it: what calling it for a symbol ends in
      on each attempt (0 is the first call). */
  type Fetch<T> = (string, nat) -> Outcome<T>

  /** The outcome of call number `attempt` (0 is the first) for `symbol`. */
  function Call<T>(fetch: Fetch<T>, symbol: string, attempt: nat): Outcome<T>
  {
    fetch(symbol, attempt)
  }

  /** The sleeps before attempts 1, 2 and 3. */
  const Delays: seq<nat> := [10, 30, 60]

  const MaxAttempts: nat := 4

  /** How many calls the wrapper makes from attempt k on. */
  function AttemptsFrom<T>(fetch: Fetch<T>, symbol: string, k: nat): (n: nat)
    requires k < MaxAttempts
    ensures k < n <= MaxAttempts
    decreases MaxAttempts - k
  {
    if Call(fetch, symbol, k).Ok? || k == MaxAttempts - 1 then k + 1 else AttemptsFrom(fetch, symbol, k + 1)
  }

  /** How many calls the wrapper makes. */
  function Attempts<T>(fetch: Fetch<T>, symbol: string): (n: nat)
    ensures 1 <= n <= MaxAttempts
  {
    AttemptsFrom(fetch, symbol, 0)
  }

  lemma {:induction false} AttemptsFromStop<T>(fetch: Fetch<T>, symbol: string, k: nat)
    requires k < MaxAttempts
    ensures forall i :: k <= i < AttemptsFrom(fetch, symbol, k) - 1 ==> Call(fetch, symbol, i).Raise?
    ensures AttemptsFrom(fetch, symbol, k) < MaxAttempts ==> Call(fetch, symbol, AttemptsFrom(fetch, symbol, k) - 1).Ok?
    decreases MaxAttempts - k
  {
    if !(Call(fetch, symbol, k).Ok? || k == MaxAttempts - 1) {
      AttemptsFromStop(fetch, symbol, k + 1);
    }
  }

  /** The wrapper calls up to and including the first success, and never
      more than four times: every call before the last one failed, and the
      last one succeeded unless it was the fourth. */
  lemma AttemptsStop<T>(fetch: Fetch<T>, symbol: string)
    ensures forall i :: 0 <= i < Attempts(fetch, symbol) - 1 ==> Call(fetch, symbol, i).Raise?
    ensures Attempts(fetch, symbol) < MaxAttempts ==> Call(fetch, symbol, Attempts(fetch, symbol) - 1).Ok?
  {
    AttemptsFromStop(fetch, symbol, 0);
  }

  /** What the wrapper returns or re-raises: the outcome of its last call. */
  function RetryOutcome<T>(fetch: Fetch<T>, symbol: string): Outcome<T>
  {
    Call(fetch, symbol, Attempts(fetch, symbol) - 1)
  }

  /** The sleeps the wrapper performs, in order. */
  function RetrySleeps<T>(fetch: Fetch<T>, symbol: string): seq<nat>
  {
    Delays[..Attempts(fetch, symbol) - 1]
  }

  /** The notice logged after failed attempt number `attempt` (1 to 3); the
      number is printed as its one decimal digit. */
  function RetryMessage(attempt: nat, funcName: string, error: string): string
    requires 0 < attempt < MaxAttempts
  {
    "Retry " + [DigitChar(attempt)] + " for " + funcName + " due to error: " + error
  }

  /** The log messages written after the first k failed attempts. */
  function RetryMessages<T>(fetch: Fetch<T>, symbol: string, funcName: string, k: nat): (r: seq<string>)
    requires k < MaxAttempts
    ensures |r| == k
  {
    if k == 0 then [] else RetryMessages(fetch, symbol, funcName, k - 1) + [RetryMessage(k, funcName, ErrorText(Call(fetch, symbol, k - 1)))]
  }

  /** The i-th notice names attempt i + 1 and carries the error of call i. */
  lemma {:induction false} RetryMessageAt<T>(fetch: Fetch<T>, symbol: string, funcName: string, k: nat, i: nat)
    requires i < k < MaxAttempts
    ensures RetryMessages(fetch, symbol, funcName, k)[i] == RetryMessage(i + 1, funcName, ErrorText(Call(fetch, symbol, i)))
  {
    if i < k - 1 {
      RetryMessageAt(fetch, symbol, funcName, k - 1, i);
    }
  }

  /** The log messages of one wrapped call: one per failed attempt except
      the fourth. */
  function RetryLog<T>(fetch: Fetch<T>, symbol: string, funcName: string): seq<string>
  {
    RetryMessages(fetch, symbol, funcName, Attempts(fetch, symbol) - 1)
  }

  /** The files after the notices of the first k failed attempts have been
      logged to `logPath`, one after another. */
  function RetryLogFiles<T>(files: FileMap, fetch: Fetch<T>, symbol: string, funcName: string,
                            logPath: Path, stamp: string, k: nat): FileMap
    requires k < MaxAttempts
  {
    if k == 0 then files
    else AfterLogError(RetryLogFiles(files, fetch, symbol, funcName, logPath, stamp, k - 1), logPath, stamp,
                       RetryMessage(k, funcName, ErrorText(Call(fetch, symbol, k - 1))))
  }

  /** The files after one wrapped call whose retry notices go to `logPath`. */
  function RetryFiles<T>(files: FileMap, fetch: Fetch<T>, symbol: string, funcName: string,
                         logPath: Path, stamp: string): FileMap
  {
    RetryLogFiles(files, fetch, symbol, funcName, logPath, stamp, Attempts(fetch, symbol) - 1)
  }

  /** Logging the notices one by one is logging the message list. */
  lemma {:induction false} RetryLogFilesAreLogs<T>(files: FileMap, fetch: Fetch<T>, symbol: string, funcName: string,
                                                    logPath: Path, stamp: string, k: nat)
    requires k < MaxAttempts
    ensures RetryLogFiles(files, fetch, symbol, funcName, logPath, stamp, k)
         == AppendLogs(files, logPath, stamp, RetryMessages(fetch, symbol, funcName, k))
  {
    if k > 0 {
      RetryLogFilesAreLogs(files, fetch, symbol, funcName, logPath, stamp, k - 1);
      AppendLogsSnoc(files, logPath, stamp, RetryMessages(fetch, symbol, funcName, k - 1),
                     RetryMessage(k, funcName, ErrorText(Call(fetch, symbol, k - 1))));
    }
  }

  /** What one wrapped call leaves on disk: its notices, in order, after the
      old content of the log. */
  lemma RetryFilesAreLogs<T>(files: FileMap, fetch: Fetch<T>, symbol: string, funcName: string,
                             logPath: Path, stamp: string)
    ensures RetryFiles(files, fetch, symbol, funcName, logPath, stamp)
         == AppendLogs(files, logPath, stamp, RetryLog(fetch, symbol, funcName))
  {
    RetryLogFilesAreLogs(files, fetch, symbol, funcName, logPath, stamp, Attempts(fetch, symbol) - 1);
  }

  /** The log file after one wrapped call: its old content, then the
      call's notices in order. */
  lemma RetryFilesLog<T>(files: FileMap, fetch: Fetch<T>, symbol: string, funcName: string,
                         logPath: Path, stamp: string)
    ensures Content(RetryFiles(files, fetch, symbol, funcName, logPath, stamp), logPath)
         == Content(files, logPath) + LogText(stamp, RetryLog(fetch, symbol, funcName))
  {
    RetryFilesAreLogs(files, fetch, symbol, funcName, logPath, stamp);
    AppendLogsLog(files, logPath, stamp, RetryLog(fetch, symbol, funcName));
  }

  /** One wrapped call touches no file but its log. */
  lemma RetryFilesElsewhere<T>(files: FileMap, fetch: Fetch<T>, symbol: string, funcName: string,
                               logPath: Path, stamp: string, q: Path)
    requires q != logPath
    ensures q in RetryFiles(files, fetch, symbol, funcName, logPath, stamp) <==> q in files
    ensures Content(RetryFiles(files, fetch, symbol, funcName, logPath, stamp), q) == Content(files, q)
  {
    RetryFilesAreLogs(files, fetch, symbol, funcName, logPath, stamp);
    AppendLogsOther(files, logPath, stamp, RetryLog(fetch, symbol, funcName), q);
  }

  /** One round of the wrapper after failed call k: log its notice and take
      the next sleep from the schedule. */
  method RetryStep<T>(disk: Disk, fetch: Fetch<T>, symbol: string, funcName: string,
                      logPath: Path, stamp: string, k: nat, sleeps: seq<nat>, ghost start: FileMap)
      returns (slept: seq<nat>)
    requires k < |Delays| && Call(fetch, symbol, k).Raise?
    requires sleeps == Delays[..k]
    requires disk.files == RetryLogFiles(start, fetch, symbol, funcName, logPath, stamp, k)
    modifies disk
    ensures slept == Delays[..k + 1]
    ensures disk.files == RetryLogFiles(start, fetch, symbol, funcName, logPath, stamp, k + 1)
  {
    disk.LogError(logPath, stamp, RetryMessage(k + 1, funcName, Call(fetch, symbol, k).error));
    assert Delays[..k + 1] == Delays[..k] + [Delays[k]];
    slept := sleeps + [Delays[k]];
  }

  /** Once the attempts from k on are all the wrapper makes, it stops
      after call k exactly when that call succeeded or was the fourth. */
  lemma LastAttempt<T>(fetch: Fetch<T>, symbol: string, k: nat)
    requires k < MaxAttempts && AttemptsFrom(fetch, symbol, k) == Attempts(fetch, symbol)
    ensures Attempts(fetch, symbol) == k + 1 <==> Call(fetch, symbol, k).Ok? || k == MaxAttempts - 1
  {
  }

  /** The wrapper applied to one call. */
  method RetryOnError<T>(disk: Disk, fetch: Fetch<T>, symbol: string, funcName: string,
                         logPath: Path, stamp: string) returns (r: Outcome<T>, calls: nat, sleeps: seq<nat>)
    modifies disk
    ensures r == RetryOutcome(fetch, symbol)
    ensures calls == Attempts(fetch, symbol)
    ensures sleeps == RetrySleeps(fetch, symbol)
    ensures disk.files == RetryFiles(old(disk.files), fetch, symbol, funcName, logPath, stamp)
  {
    var attempt := 0;
    sleeps := [];
    r := Call(fetch, symbol, attempt);
    while r.Raise? && attempt < |Delays|
      invariant 0 <= attempt < MaxAttempts
      invariant r == Call(fetch, symbol, attempt)
      invariant AttemptsFrom(fetch, symbol, attempt) == Attempts(fetch, symbol)
      invariant sleeps == Delays[..attempt]
      invariant disk.files == RetryLogFiles(old(disk.files), fetch, symbol, funcName, logPath, stamp, attempt)
    {
      sleeps := RetryStep(disk, fetch, symbol, funcName, logPath, stamp, attempt, sleeps, old(disk.files));
      attempt := attempt + 1;
      r := Call(fetch, symbol, attempt);
    }
    LastAttempt(fetch, symbol, attempt);
    calls := attempt + 1;
  }

  /** A first success at attempt k is returned after exactly k sleeps from
      the schedule and k notices "Retry 1" .. "Retry k". */
  lemma SuccessAtAttempt<T>(fetch: Fetch<T>, symbol: string, funcName: string, k: nat)
    requires k < MaxAttempts && Call(fetch, symbol, k).Ok?
    requires forall i :: 0 <= i < k ==> Call(fetch, symbol, i).Raise?
    ensures Attempts(fetch, symbol) == k + 1
    ensures RetryOutcome(fetch, symbol) == Call(fetch, symbol, k)
    ensures RetrySleeps(fetch, symbol) == Delays[..k]
    ensures |RetryLog(fetch, symbol, funcName)| == k
    ensures forall i :: 0 <= i < k ==>
      RetryLog(fetch, symbol, funcName)[i] == RetryMessage(i + 1, funcName, Call(fetch, symbol, i).error)
  {
    AttemptsStop(fetch, symbol);
    forall i | 0 <= i < k
      ensures RetryLog(fetch, symbol, funcName)[i] == RetryMessage(i + 1, funcName, Call(fetch, symbol, i).error)
    {
      RetryMessageAt(fetch, symbol, funcName, k, i);
    }
  }

  /** Four failures: the fourth exception is re-raised after sleeping 10, 30
      and 60 seconds and logging three notices. */
  lemma AllAttemptsFail<T>(fetch: Fetch<T>, symbol: string, funcName: string)
    requires forall i :: 0 <= i < MaxAttempts ==> Call(fetch, symbol, i).Raise?
    ensures Attempts(fetch, symbol) == MaxAttempts
    ensures RetryOutcome(fetch, symbol) == Raise(Call(fetch, symbol, 3).error)
    ensures RetrySleeps(fetch, symbol) == [10, 30, 60]
    ensures |RetryLog(fetch, symbol, funcName)| == 3
    ensures forall i :: 0 <= i < 3 ==>
      RetryLog(fetch, symbol, funcName)[i] == RetryMessage(i + 1, funcName, Call(fetch, symbol, i).error)
  {
    AttemptsStop(fetch, symbol);
    assert Call(fetch, symbol, 3).Raise?;
    forall i | 0 <= i < 3
      ensures RetryLog(fetch, symbol, funcName)[i] == RetryMessage(i + 1, funcName, Call(fetch, symbol, i).error)
    {
      RetryMessageAt(fetch, symbol, funcName, 3, i);
    }
  }

  /** Notice n (1 to 3) reads "Retry n for <function name> due to error:
      <error>", with n written as its decimal digit. */
  lemma RetryNoticeText(n: nat, funcName: string, error: string)
    requires 0 < n < MaxAttempts
    ensures RetryMessage(n, funcName, error) == "Retry " + ["123"[n - 1]] + " for " + funcName + " due to error: " + error
  {
    assert DigitChar(n) == "123"[n - 1];
  }
}
