/** The local files the sinks of `data_utils` write: a map from path to the
    file's text. A path absent from the map is a file that does not exist. */
module Files {
  import opened Outcomes
  import opened Text

  type Path = string
  type FileMap = map<Path, string>

  /** The text an append-mode open starts from: the file's content, or
      nothing when the open creates it. */
  function Content(files: FileMap, path: Path): string
  {
    if path in files then files[path] else ""
  }

  /** Opening `path` in append mode (creating it if absent) and writing `text`. */
  function AppendText(files: FileMap, path: Path, text: string): (r: FileMap)
    ensures r.Keys == files.Keys + {path}
    ensures Content(files, path) <= r[path] && |r[path]| == |Content(files, path)| + |text|
    ensures r == files[path := r[path]]
  {
    files[path := Content(files, path) + text]
  }

  // ---------------------------------------------------------------- log_error

  /** One line of the error log: the timestamp, " - ", the message. */
  function LogLine(stamp: string, message: string): string
  {
    stamp + " - " + message + "\n"
  }

  function AfterLogError(files: FileMap, path: Path, stamp: string, message: string): (r: FileMap)
    ensures path in r && r[path] == Content(files, path) + LogLine(stamp, message)
    ensures r == files[path := r[path]]
  {
    AppendText(files, path, LogLine(stamp, message))
  }

  /** The text that the lines for `messages`, all stamped `stamp`, add to a log. */
  function LogText(stamp: string, messages: seq<string>): string
  {
    LogUpTo(stamp, messages, |messages|)
  }

  /** The text of the lines for the first k of `messages`. */
  function LogUpTo(stamp: string, messages: seq<string>, k: nat): string
    requires k <= |messages|
  {
    if k == 0 then "" else LogUpTo(stamp, messages, k - 1) + LogLine(stamp, messages[k - 1])
  }

  lemma LogTextSingle(stamp: string, message: string)
    ensures LogText(stamp, [message]) == LogLine(stamp, message)
  {
    assert LogUpTo(stamp, [message], 1) == LogUpTo(stamp, [message], 0) + LogLine(stamp, message);
    assert "" + LogLine(stamp, message) == LogLine(stamp, message);
  }

  /** The lines for a prefix do not depend on what follows it. */
  lemma {:induction false} LogUpToPrefix(stamp: string, a: seq<string>, b: seq<string>, k: nat)
    requires k <= |a|
    ensures LogUpTo(stamp, a + b, k) == LogUpTo(stamp, a, k)
  {
    if k > 0 {
      LogUpToPrefix(stamp, a, b, k - 1);
      assert (a + b)[k - 1] == a[k - 1];
    }
  }

  lemma {:induction false} LogUpToAppend(stamp: string, a: seq<string>, b: seq<string>, j: nat)
    requires j <= |b|
    ensures LogUpTo(stamp, a + b, |a| + j) == LogText(stamp, a) + LogUpTo(stamp, b, j)
  {
    if j == 0 {
      LogUpToPrefix(stamp, a, b, |a|);
    } else {
      LogUpToAppend(stamp, a, b, j - 1);
      assert (a + b)[|a| + j - 1] == b[j - 1];
      ConcatAssoc(LogText(stamp, a), LogUpTo(stamp, b, j - 1), LogLine(stamp, b[j - 1]));
    }
  }

  /** Logging each message in turn; logging nothing leaves even an absent
      log file absent. */
  function AppendLogs(files: FileMap, path: Path, stamp: string, messages: seq<string>): FileMap
  {
    if |messages| == 0 then files
    else AfterLogError(AppendLogs(files, path, stamp, messages[..|messages| - 1]), path, stamp, messages[|messages| - 1])
  }

  lemma AppendLogsSnoc(files: FileMap, path: Path, stamp: string, messages: seq<string>, message: string)
    ensures AppendLogs(files, path, stamp, messages + [message])
      == AfterLogError(AppendLogs(files, path, stamp, messages), path, stamp, message)
  {
    assert (messages + [message])[..|messages|] == messages;
  }

  /** Successive log calls leave exactly their lines, in order, after the
      old content of the log. */
  lemma {:induction false} AppendLogsLog(files: FileMap, path: Path, stamp: string, messages: seq<string>)
    ensures Content(AppendLogs(files, path, stamp, messages), path) == Content(files, path) + LogText(stamp, messages)
    ensures |messages| > 0 ==> path in AppendLogs(files, path, stamp, messages)
  {
    if |messages| > 0 {
      var init, last := messages[..|messages| - 1], messages[|messages| - 1];
      var prev := AppendLogs(files, path, stamp, init);
      AppendLogsLog(files, path, stamp, init);
      assert AppendLogs(files, path, stamp, messages) == AfterLogError(prev, path, stamp, last);
      assert messages == init + [last];
      LogUpToPrefix(stamp, init, [last], |init|);
      assert LogText(stamp, messages) == LogText(stamp, init) + LogLine(stamp, last);
      ConcatAssoc(Content(files, path), LogText(stamp, init), LogLine(stamp, last));
    }
  }

  /** Successive log calls touch no other file. */
  lemma {:induction false} AppendLogsOther(files: FileMap, path: Path, stamp: string, messages: seq<string>, q: Path)
    requires q != path
    ensures q in AppendLogs(files, path, stamp, messages) <==> q in files
    ensures Content(AppendLogs(files, path, stamp, messages), q) == Content(files, q)
  {
    if |messages| > 0 {
      AppendLogsOther(files, path, stamp, messages[..|messages| - 1], q);
    }
  }

  lemma LogTextAppend(stamp: string, a: seq<string>, b: seq<string>)
    ensures LogText(stamp, a + b) == LogText(stamp, a) + LogText(stamp, b)
  {
    LogUpToAppend(stamp, a, b, |b|);
  }

  // ------------------------------------------------------ write_or_append_csv

  /** write_or_append_csv: a new file gets the header line and the rows; an
      existing one gets only the rows after its old content. */
  function AfterCsvWrite(files: FileMap, path: Path, header: string, rows: seq<string>): (r: FileMap)
    ensures path in r
    ensures path !in files ==> r[path] == Lines([header] + rows)
    ensures path in files ==> r[path] == files[path] + Lines(rows)
    ensures r == files[path := r[path]]
  {
    if path !in files then files[path := Lines([header] + rows)]
    else files[path := files[path] + Lines(rows)]
  }

  /** to_csv in write mode: the file is replaced by the header and the rows. */
  function AfterCsvOverwrite(files: FileMap, path: Path, header: string, rows: seq<string>): (r: FileMap)
    ensures path in r && r[path] == Lines([header] + rows)
    ensures r == files[path := r[path]]
  {
    files[path := Lines([header] + rows)]
  }

  /** Writes to an existing file only ever append their rows, in call order. */
  lemma {:induction false} CsvAppendsRows(files: FileMap, path: Path, later: seq<(string, seq<string>)>)
    requires path in files
    ensures path in CsvWriteAll(files, path, later)
    ensures CsvWriteAll(files, path, later)[path] == files[path] + Lines(AllRows(later))
    decreases later
  {
    if |later| > 0 {
      CsvAppendsRows(AfterCsvWrite(files, path, later[0].0, later[0].1), path, later[1..]);
      TerminatedAppend(later[0].1, AllRows(later[1..]), "\n");
      ConcatAssoc(files[path], Lines(later[0].1), Lines(AllRows(later[1..])));
    }
  }

  /** Repeated create-or-append writes to one path leave the header of the
      first write exactly once, at the top, followed by every write's rows in
      call order. */
  lemma CsvHeaderOnce(files: FileMap, path: Path, header: string, rowsSoFar: seq<string>,
                      later: seq<(string, seq<string>)>)
    requires path in files && files[path] == Lines([header] + rowsSoFar)
    ensures path in CsvWriteAll(files, path, later)
    ensures CsvWriteAll(files, path, later)[path] == Lines([header] + rowsSoFar + AllRows(later))
  {
    CsvAppendsRows(files, path, later);
    TerminatedAppend([header] + rowsSoFar, AllRows(later), "\n");
  }

  /** Successive write_or_append_csv calls to one path, each with its own
      header and rows. */
  function CsvWriteAll(files: FileMap, path: Path, writes: seq<(string, seq<string>)>): FileMap
    decreases writes
  {
    if |writes| == 0 then files
    else CsvWriteAll(AfterCsvWrite(files, path, writes[0].0, writes[0].1), path, writes[1..])
  }

  function AllRows(writes: seq<(string, seq<string>)>): seq<string>
  {
    if |writes| == 0 then [] else writes[0].1 + AllRows(writes[1..])
  }

  /** From an absent file, any sequence of writes leaves the first write's
      header once and nothing but rows after it. */
  lemma CsvFromAbsent(files: FileMap, path: Path, writes: seq<(string, seq<string>)>)
    requires path !in files && |writes| > 0
    ensures path in CsvWriteAll(files, path, writes)
    ensures CsvWriteAll(files, path, writes)[path] == Lines([writes[0].0] + AllRows(writes))
  {
    var first := AfterCsvWrite(files, path, writes[0].0, writes[0].1);
    CsvHeaderOnce(first, path, writes[0].0, writes[0].1, writes[1..]);
    assert [writes[0].0] + writes[0].1 + AllRows(writes[1..]) == [writes[0].0] + AllRows(writes);
  }

  // -------------------------------------------------- init_json_file / append_json

  /** init_json_file: an absent file becomes the opening bracket; an existing
      file is left exactly as it is. */
  function AfterInitJson(files: FileMap, path: Path): (r: FileMap)
    ensures path in r
    ensures path in files ==> r == files
    ensures path !in files ==> r[path] == "[" && r.Keys == files.Keys + {path}
    ensures r == files[path := r[path]]
  {
    if path in files then files else files[path := "["]
  }

  lemma InitJsonIdempotent(files: FileMap, path: Path)
    ensures AfterInitJson(AfterInitJson(files, path), path) == AfterInitJson(files, path)
  {
  }

  /** What append_json writes after the object. */
  function Terminator(isLast: bool): string
  {
    if isLast then "]" else ",\n"
  }

  /** Message of the error seeking one byte before the end of an empty file. */
  const SeekError: string := "[Errno 22] Invalid argument"

  /** append_json on one file: `existing` is its content, None when absent.
      A trailing ']' is replaced by a separator, then the object and its
      terminator are appended; an existing empty file cannot be sought into. */
  function AppendJsonContent(existing: Option<string>, obj: string, isLast: bool): (r: Outcome<string>)
    ensures r.Raise? <==> existing == Some("")
    ensures r.Raise? ==> r.error == SeekError
  {
    match existing
    case None => Ok("[" + obj + Terminator(isLast))
    case Some(text) =>
      if |text| == 0 then Raise(SeekError)
      else if text[|text| - 1] == ']' then Ok(text[..|text| - 1] + ",\n" + obj + Terminator(isLast))
      else Ok(text + obj + Terminator(isLast))
  }

  /** The three shapes of append_json's result: a new file, a closing ']'
      swapped for a separator, or a plain append. */
  lemma AppendJsonShape(existing: Option<string>, obj: string, isLast: bool)
    ensures var r := AppendJsonContent(existing, obj, isLast); var tail := obj + Terminator(isLast);
      && (existing == None ==> r == Ok("[" + tail))
      && (existing == Some("") ==> r == Raise(SeekError))
      && (existing.Some? && |existing.value| > 0 ==> r.Ok?)
      && (existing.Some? && |existing.value| > 0 && existing.value[|existing.value| - 1] == ']' ==>
            var before, n := existing.value, |existing.value|;
            && |r.value| == n + 1 + |tail|
            && r.value[..n - 1] == before[..n - 1]
            && r.value[n - 1..n + 1] == ",\n"
            && r.value[n + 1..] == tail)
      && (existing.Some? && |existing.value| > 0 && existing.value[|existing.value| - 1] != ']' ==>
            existing.value <= r.value && r.value[|existing.value|..] == tail)
  {
    if existing.Some? && |existing.value| > 0 {
      var text := existing.value;
      var kept := if text[|text| - 1] == ']' then text[..|text| - 1] + ",\n" else text;
      ConcatAssoc(kept, obj, Terminator(isLast));
      assert AppendJsonContent(existing, obj, isLast).value == kept + (obj + Terminator(isLast));
    } else if existing == None {
      ConcatAssoc("[", obj, Terminator(isLast));
    }
  }

  function Existing(files: FileMap, path: Path): Option<string>
  {
    if path in files then Some(files[path]) else None
  }

  /** append_json on the whole file map: on failure nothing has been written. */
  function AfterAppendJson(files: FileMap, path: Path, obj: string, isLast: bool): (r: Outcome<FileMap>)
    ensures r.Raise? <==> path in files && files[path] == ""
    ensures r.Ok? ==> r.value.Keys == files.Keys + {path}
    ensures r.Ok? ==> path in r.value && r.value == files[path := r.value[path]]
  {
    match AppendJsonContent(Existing(files, path), obj, isLast)
    case Ok(text) => Ok(files[path := text])
    case Raise(e) => Raise(e)
  }

  /** The local file system as the sinks see it: one mutable map of files. */
  class Disk {
    var files: FileMap

    constructor (initial: FileMap)
      ensures files == initial
    {
      files := initial;
    }

    /** log_error: append one timestamped line, creating the log if needed. */
    method LogError(path: Path, stamp: string, message: string)
      modifies this
      ensures files == AfterLogError(old(files), path, stamp, message)
    {
      var existing := if path in files then files[path] else "";
      files := files[path := existing + LogLine(stamp, message)];
    }

    /** Appending raw text in append mode. */
    method AppendRaw(path: Path, text: string)
      modifies this
      ensures files == AppendText(old(files), path, text)
    {
      var existing := if path in files then files[path] else "";
      files := files[path := existing + text];
    }

    /** write_or_append_csv: the header goes out only when the file is new. */
    method WriteOrAppendCsv(path: Path, header: string, rows: seq<string>)
      modifies this
      ensures files == AfterCsvWrite(old(files), path, header, rows)
    {
      if path !in files {
        files := files[path := Lines([header] + rows)];
      } else {
        files := files[path := files[path] + Lines(rows)];
      }
    }

    /** to_csv in write mode. */
    method WriteCsv(path: Path, header: string, rows: seq<string>)
      modifies this
      ensures files == AfterCsvOverwrite(old(files), path, header, rows)
    {
      files := files[path := Lines([header] + rows)];
    }

    /** init_json_file. */
    method InitJsonFile(path: Path)
      modifies this
      ensures files == AfterInitJson(old(files), path)
    {
      if path !in files {
        files := files[path := "["];
      }
    }

    /** append_json: peek at the last byte, swap a closing ']' for a
        separator, then append the object and its terminator. */
    method AppendJson(path: Path, obj: string, isLast: bool) returns (status: Outcome<()>)
      modifies this
      ensures AfterAppendJson(old(files), path, obj, isLast).Ok? ==>
        status == Ok(()) && files == AfterAppendJson(old(files), path, obj, isLast).value
      ensures AfterAppendJson(old(files), path, obj, isLast).Raise? ==>
        status == Raise(AfterAppendJson(old(files), path, obj, isLast).error) && files == old(files)
    {
      if path in files {
        var text := files[path];
        if |text| == 0 {
          return Raise(SeekError);
        }
        if text[|text| - 1] == ']' {
          files := files[path := text[..|text| - 1] + ",\n"];
        }
      } else {
        InitJsonFile(path);
      }
      files := files[path := files[path] + obj + Terminator(isLast)];
      status := Ok(());
    }
  }
}
