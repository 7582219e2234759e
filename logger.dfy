/** The logger itself: the log-file path it builds, the record it is created
    with, and its operations (log a line, query counters and times, exit).

    The C record `struct LOGGER` is passed BY VALUE to every operation, so no
    operation can change the caller's copy; it is a datatype here. The `FILE*`
    inside it is shared by all copies and is written and closed in place; it
    is the `LogFile` object. Standard output is the `Console` object. Each
    timestamp string produced by the wall clock is an opaque parameter `ts`,
    and each `time(NULL)` reading an integer parameter `now`. Where the C code
    calls `exit(EXIT_FAILURE)`, the model returns `exited == true`. */
module Logging {
  import opened Levels
  import opened CStrings
  import opened Streams

  // ---------------------------------------------------------------- path

  /** Size of the `char log_file[100]` buffer the path is built in. */
  const PathBufferSize: nat := 100

  /** The separator test applied to the last character of the root
      directory. It is a disjunction of two inequalities, so no character
      fails it. */
  predicate NeedsSeparator(last: char) {
    last != '\\' || last != '/'
  }

  /** The log-file path: the root directory, a "/" when the separator test
      holds, and the file name. */
  function LogFilePath(rootDir: string, fileName: string): string
    requires |rootDir| > 0
  {
    rootDir + (if NeedsSeparator(rootDir[|rootDir| - 1]) then "/" else "") + fileName
  }

  /** What the caller must supply for the path to be built without undefined
      behaviour: two C strings, a root directory with a last character to
      inspect, and a path that fits the buffer with its terminator. */
  predicate PathFits(rootDir: string, fileName: string) {
    && IsCString(rootDir) && IsCString(fileName)
    && |rootDir| > 0
    && |rootDir| + 1 + |fileName| < PathBufferSize
  }

  /** The separator test never fails, so a "/" is always inserted, even after
      a root directory that already ends in '/' or '\\'. */
  lemma LogFilePathAlwaysAddsSlash(rootDir: string, fileName: string)
    requires |rootDir| > 0
    ensures LogFilePath(rootDir, fileName) == rootDir + "/" + fileName
    ensures rootDir[|rootDir| - 1] == '/' ==>
              LogFilePath(rootDir, fileName)[|rootDir| - 1..|rootDir| + 1] == "//"
    ensures rootDir[|rootDir| - 1] == '\\' ==>
              LogFilePath(rootDir, fileName)[|rootDir| - 1..|rootDir| + 1] == "\\/"
  {
  }

  /** Builds the path the way the logger does: successive `strcat` calls into
      a zero-filled 100-character buffer. */
  method BuildLogPath(rootDir: string, fileName: string) returns (path: string)
    requires PathFits(rootDir, fileName)
    ensures path == LogFilePath(rootDir, fileName)
    ensures path == rootDir + "/" + fileName
    ensures IsCString(path) && |path| < PathBufferSize
  {
    var buf := new char[PathBufferSize](_ => Nul);
    assert CStr(buf[..]) == "" by {
      CStrOfTerminated(buf[..], "");
    }
    Strcat(buf, rootDir);
    var last := rootDir[|rootDir| - 1];
    if NeedsSeparator(last) {
      Strcat(buf, "/");
    }
    Strcat(buf, fileName);
    path := CStr(buf[..]);
    LogFilePathAlwaysAddsSlash(rootDir, fileName);
  }

  // -------------------------------------------------------------- record

  /** `struct LOGGER`. Times are `time_t` readings. */
  datatype Logger = Logger(
    rootDir: string,
    fileName: string,
    file: LogFile?,
    startTime: int,
    endTime: int,
    curTime: int,
    logCount: int,
    debug: bool,
    levels: LevelTable)

  /** The record the logger is created with, around the stream `fopen`
      returned (null when it failed) and one clock reading. */
  function InitialRecord(rootDir: string, fileName: string, file: LogFile?,
                         debug: bool, now: int): (l: Logger)
    ensures l.rootDir == rootDir && l.fileName == fileName && l.file == file
    ensures l.debug == debug
    ensures l.startTime == now && l.endTime == now && l.curTime == now
    ensures LogCount(l) == 0
    ensures forall i :: 0 <= i < LevelCount ==>
              LevelCountOf(l, i) == 0 && l.levels[i].level == i && l.levels[i].color == LevelColor(i)
  {
    var l := Logger(rootDir, fileName, file, now, now, now, 0, debug, InitialLevels());
    forall i | 0 <= i < LevelCount
      ensures l.levels[i].count == 0 && l.levels[i].level == i && l.levels[i].color == LevelColor(i)
    {
      InitialLevelsAgree(i);
    }
    l
  }

  /** `IS_LOGGER_ACTIVE`: the record holds a stream. */
  predicate IsActive(l: Logger) {
    l.file != null
  }

  /** `GET_LOGGER_LOG_COUNT`. */
  function LogCount(l: Logger): int {
    l.logCount
  }

  /** `GET_LOGGER_LEVEL_COUNT`: the count in the table entry the level
      indexes. A level outside the enumeration would index past the table,
      which is undefined behaviour in C, so callers must not pass one. */
  function LevelCountOf(l: Logger, level: Level): int
    requires 0 <= level < LevelCount
  {
    l.levels[level].count
  }

  /** `GET_LOGGER_START_TIME`. */
  function StartTime(l: Logger): int {
    l.startTime
  }

  /** `GET_LOGGER_END_TIME`: the stored end time while the record holds a
      stream, otherwise the current clock reading `now`. */
  function EndTime(l: Logger, now: int): int {
    if IsActive(l) then l.endTime else now
  }

  /** What the accessors read on a freshly created record: it is active
      exactly when `fopen` gave a stream, its counters are zero, and its end
      time is the creation time while active and the current clock otherwise. */
  lemma FreshRecordReadings(rootDir: string, fileName: string, file: LogFile?,
                            debug: bool, now: int, later: int)
    ensures var l := InitialRecord(rootDir, fileName, file, debug, now);
            && (IsActive(l) <==> file != null)
            && LogCount(l) == 0
            && (forall i :: 0 <= i < LevelCount ==> LevelCountOf(l, i) == 0)
            && StartTime(l) == now
            && EndTime(l, later) == (if file != null then now else later)
  {
  }

  /** The end time never reports when the logger exited: the field is only
      written at creation, so a caller's record that still holds its stream
      reads the creation time, and the copy `EXIT_LOGGER` cleared reads the
      clock at the moment of the query. */
  lemma EndTimeNeverReportsExit(rootDir: string, fileName: string, file: LogFile,
                                debug: bool, now: int, later: int)
    ensures var caller := InitialRecord(rootDir, fileName, file, debug, now);
            && EndTime(caller, later) == now
            && EndTime(caller.(file := null), later) == later
  {
  }

  // --------------------------------------------------------------- lines

  const OpenFailedMessage: string := "Failed to open log file"
  const NoActiveLoggerMessage: string := "FAILED: No active logger is running, please initiate logger"

  /** The line written to the log file for one log call. */
  function FileLine(ts: string, level: Level, message: string): string {
    ts + " " + LevelString(level) + " " + message
  }

  /** The line `PRINT_LOG` writes to the console. */
  function ConsoleLine(ts: string, level: Level, message: string): string {
    ColorCode(LevelColor(level)) + ts + " " + LevelString(level) + " " + message + ResetCode
  }

  function OpeningBanner(ts: string): string {
    ">>> Logger initiated at " + ts + " <<<"
  }

  function OpeningConsoleLine(ts: string): string {
    ColorCode(Cyan) + ">>> Logger initiated at " + ts + " <<< " + ResetCode
  }

  function ClosingBanner(ts: string): string {
    ">>> Logger exited at " + ts + " <<<"
  }

  function ClosingConsoleLine(ts: string): string {
    ColorCode(Cyan) + ">>> Logger exited at " + ts + " <<<" + ResetCode
  }

  function NotInitializedLine(): string {
    ColorCode(Red) + ">>> Logger not initialized <<<" + ResetCode
  }

  /** A console echo is the file line for the same call, wrapped in the
      level's colour and the reset sequence. */
  lemma ConsoleLineWrapsFileLine(ts: string, level: Level, message: string)
    ensures ConsoleLine(ts, level, message)
            == ColorCode(LevelColor(level)) + FileLine(ts, level, message) + ResetCode
    ensures !IsNamed(level) ==>
              ConsoleLine(ts, level, message)
              == ColorCode(White) + ts + " UNKNOWN " + message + ResetCode
  {
  }

  // ---------------------------------------------------------- operations

  /** The timestamps an operation formats from the clock: one for the line it
      writes to the file, one for the line it prints to the console. The C
      code reads the clock separately for each, so they may differ. */
  datatype Stamps = Stamps(file: string, console: string)

  /** `PRINT_LOG`: one coloured line on the console. */
  method PrintLog(console: Console, ts: string, message: string, level: Level)
    modifies console
    ensures console.lines == old(console.lines) + [ConsoleLine(ts, level, message)]
  {
    console.WriteLine(ConsoleLine(ts, level, message));
  }

  /** `INIT_LOGGER`. `opens` is whether `fopen` succeeds on the built path.
      On failure a FATAL line is printed and the process exits; otherwise the
      file is truncated, gets the opening banner, and the console shows it. */
  method InitLogger(rootDir: string, fileName: string, debug: bool, now: int,
                    at: Stamps, opens: bool, console: Console)
    returns (logger: Logger, exited: bool)
    requires PathFits(rootDir, fileName)
    modifies console
    ensures exited <==> !opens
    ensures logger == InitialRecord(rootDir, fileName, logger.file, debug, now)
    ensures IsActive(logger) <==> opens
    ensures !opens ==>
              console.lines == old(console.lines) + [ConsoleLine(at.console, Fatal, OpenFailedMessage)]
    ensures opens ==>
              && fresh(logger.file)
              && logger.file.path == rootDir + "/" + fileName
              && logger.file.isOpen
              && logger.file.lines == [OpeningBanner(at.file)]
              && console.lines == old(console.lines) + [OpeningConsoleLine(at.console)]
  {
    var path := BuildLogPath(rootDir, fileName);
    var file: LogFile? := null;
    if opens {
      file := new LogFile.Open(path);
    }
    logger := InitialRecord(rootDir, fileName, file, debug, now);
    if file == null {
      PrintLog(console, at.console, OpenFailedMessage, Fatal);
      exited := true;
      return;
    }
    exited := false;
    file.WriteLine(OpeningBanner(at.file));
    console.WriteLine(OpeningConsoleLine(at.console));
  }

  /** `LOG`. On an inactive record an ERROR line is printed and the process
      exits. Otherwise the call is echoed to the console when the record's
      debug flag or `debugOnce` is set, and exactly one line is appended to
      the file. The record, and so every counter in it, is left as it was. */
  method Log(logger: Logger, message: string, level: Level, debugOnce: bool,
             at: Stamps, console: Console)
    returns (exited: bool)
    requires IsActive(logger) ==> logger.file.isOpen
    modifies logger.file, console
    ensures exited <==> !IsActive(logger)
    ensures !IsActive(logger) ==>
              console.lines == old(console.lines) + [ConsoleLine(at.console, Error, NoActiveLoggerMessage)]
    ensures IsActive(logger) ==>
              && logger.file.isOpen
              && logger.file.lines == old(logger.file.lines) + [FileLine(at.file, level, message)]
              && console.lines == old(console.lines)
                                  + (if logger.debug || debugOnce
                                     then [ConsoleLine(at.console, level, message)] else [])
  {
    if !IsActive(logger) {
      PrintLog(console, at.console, NoActiveLoggerMessage, Error);
      return true;
    }
    if logger.debug || debugOnce {
      PrintLog(console, at.console, message, level);
    }
    logger.file.WriteLine(FileLine(at.file, level, message));
    return false;
  }

  /** `EXIT_LOGGER`. It works on its own copy of the record: on an active
      one it writes the closing banner, closes the shared stream and clears
      the copy's stream; on an inactive one it prints a warning and nothing
      else. `local` is that copy as it is when the call returns; the
      caller's record is a value and is not affected. The end time is not
      updated. */
  method ExitLogger(logger: Logger, at: Stamps, console: Console)
    returns (local: Logger)
    requires IsActive(logger) ==> logger.file.isOpen
    modifies logger.file, console
    ensures !IsActive(local)
    ensures local == logger.(file := null)
    ensures IsActive(logger) ==>
              && !logger.file.isOpen
              && logger.file.lines == old(logger.file.lines) + [ClosingBanner(at.file)]
              && console.lines == old(console.lines) + [ClosingConsoleLine(at.console)]
    ensures !IsActive(logger) ==> console.lines == old(console.lines) + [NotInitializedLine()]
  {
    local := logger;
    if IsActive(local) {
      local.file.WriteLine(ClosingBanner(at.file));
      console.WriteLine(ClosingConsoleLine(at.console));
      local.file.Close();
      local := local.(file := null);
    } else {
      console.WriteLine(NotInitializedLine());
    }
  }

  // ------------------------------------------------------------- session

  /** One `LOG` call: its message, level, `debug_once` flag and the
      timestamps its lines carry. */
  datatype Entry = Entry(message: string, level: Level, debugOnce: bool, at: Stamps)

  /** The file line one log call writes on an active logger. */
  function EntryLine(e: Entry): string {
    FileLine(e.at.file, e.level, e.message)
  }

  /** The console echo one log call prints on an active logger whose debug
      flag is `debug`: its coloured line, or nothing. */
  function EntryEcho(debug: bool, e: Entry): seq<string> {
    if debug || e.debugOnce then [ConsoleLine(e.at.console, e.level, e.message)] else []
  }

  /** The file lines a sequence of log calls produces, one per call. */
  function FileLines(entries: seq<Entry>): (r: seq<string>)
    ensures |r| == |entries|
  {
    if entries == [] then []
    else [EntryLine(entries[0])] + FileLines(entries[1..])
  }

  /** The console echoes a sequence of log calls produces on a logger whose
      debug flag is `debug`: one per call that is echoed, in call order. */
  function Echoes(debug: bool, entries: seq<Entry>): (r: seq<string>)
    ensures |r| <= |entries|
    ensures debug ==> |r| == |entries|
  {
    if entries == [] then []
    else EntryEcho(debug, entries[0]) + Echoes(debug, entries[1..])
  }

  /** Create a logger, log every entry through the returned record, then exit
      it. When the file opens, it ends up holding the opening banner, one
      line per entry in order and the closing banner, and is closed; the
      caller's record is still the record it was created as: it holds the
      (now closed) stream, so it still passes the active test, and reads
      zero counters. */
  method Session(rootDir: string, fileName: string, debug: bool, now: int,
                 opening: Stamps, closing: Stamps, opens: bool, entries: seq<Entry>,
                 console: Console)
    returns (logger: Logger, exited: bool)
    requires PathFits(rootDir, fileName)
    modifies console
    ensures exited <==> !opens
    ensures logger == InitialRecord(rootDir, fileName, logger.file, debug, now)
    ensures opens ==>
              && fresh(logger.file)
              && IsActive(logger) && !logger.file.isOpen
              && logger.file.lines
                 == [OpeningBanner(opening.file)] + FileLines(entries) + [ClosingBanner(closing.file)]
              && console.lines
                 == old(console.lines) + [OpeningConsoleLine(opening.console)]
                    + Echoes(debug, entries) + [ClosingConsoleLine(closing.console)]
    ensures LogCount(logger) == 0
    ensures forall i :: 0 <= i < LevelCount ==> LevelCountOf(logger, i) == 0
  {
    logger, exited := InitLogger(rootDir, fileName, debug, now, opening, opens, console);
    if exited {
      return;
    }
    LogAll(logger, entries, console);
    var local := ExitLogger(logger, closing, console);
  }

  /** Logs every entry, in order, through an active record. */
  method LogAll(logger: Logger, entries: seq<Entry>, console: Console)
    requires IsActive(logger) && logger.file.isOpen
    modifies logger.file, console
    ensures logger.file.isOpen
    ensures logger.file.lines == old(logger.file.lines) + FileLines(entries)
    ensures console.lines == old(console.lines) + Echoes(logger.debug, entries)
  {
    var k := 0;
    while k < |entries|
      invariant 0 <= k <= |entries|
      invariant logger.file.isOpen
      invariant logger.file.lines == old(logger.file.lines) + FileLines(entries[..k])
      invariant console.lines == old(console.lines) + Echoes(logger.debug, entries[..k])
    {
      var e := entries[k];
      ghost var fileBefore, consoleBefore := logger.file.lines, console.lines;
      var stop := Log(logger, e.message, e.level, e.debugOnce, e.at, console);
      FileLinesStep(entries, k);
      EchoesStep(logger.debug, entries, k);
      assert logger.file.lines == fileBefore + [EntryLine(e)];
      assert console.lines == consoleBefore + EntryEcho(logger.debug, e);
      k := k + 1;
    }
    assert entries[..k] == entries;
  }

  /** With the logger's debug flag set, or `debug_once` set on every call,
      every call is echoed, in order, each with its own timestamp. */
  lemma {:induction false} EchoesAll(debug: bool, entries: seq<Entry>)
    requires debug || forall i :: 0 <= i < |entries| ==> entries[i].debugOnce
    ensures Echoes(debug, entries)
            == seq(|entries|, i requires 0 <= i < |entries| =>
                     ConsoleLine(entries[i].at.console, entries[i].level, entries[i].message))
  {
    if entries != [] {
      EchoesAll(debug, entries[1..]);
    }
  }

  /** With the debug flag clear and `debug_once` clear on every call, nothing
      is echoed. */
  lemma {:induction false} EchoesNone(entries: seq<Entry>)
    requires forall i :: 0 <= i < |entries| ==> !entries[i].debugOnce
    ensures Echoes(false, entries) == []
  {
    if entries != [] {
      EchoesNone(entries[1..]);
    }
  }

  /** Extending the processed prefix by one entry appends that entry's file
      line. */
  lemma {:induction false} FileLinesStep(entries: seq<Entry>, k: nat)
    requires k < |entries|
    ensures FileLines(entries[..k + 1]) == FileLines(entries[..k]) + [EntryLine(entries[k])]
  {
    if k == 0 {
      assert entries[..1] == [entries[0]];
      assert entries[..1][1..] == [];
    } else {
      var p, q := entries[..k + 1], entries[..k];
      FileLinesStep(entries[1..], k - 1);
      assert p[1..] == entries[1..][..k];
      assert q[1..] == entries[1..][..k - 1];
      calc {
        FileLines(p);
        [EntryLine(p[0])] + FileLines(p[1..]);
        [EntryLine(p[0])] + (FileLines(q[1..]) + [EntryLine(entries[k])]);
        ([EntryLine(q[0])] + FileLines(q[1..])) + [EntryLine(entries[k])];
        FileLines(q) + [EntryLine(entries[k])];
      }
    }
  }

  /** The i-th file line of a sequence of log calls is the line of the i-th
      call: the lines come in call order, each with its own timestamp. */
  lemma {:induction false} FileLinesInOrder(entries: seq<Entry>, i: nat)
    requires i < |entries|
    ensures FileLines(entries)[i] == FileLine(entries[i].at.file, entries[i].level, entries[i].message)
  {
    if i > 0 {
      FileLinesInOrder(entries[1..], i - 1);
    }
  }

  /** Extending the processed prefix by one entry appends that entry's echo,
      if it has one. */
  lemma {:induction false} EchoesStep(debug: bool, entries: seq<Entry>, k: nat)
    requires k < |entries|
    ensures Echoes(debug, entries[..k + 1]) == Echoes(debug, entries[..k]) + EntryEcho(debug, entries[k])
  {
    if k == 0 {
      assert entries[..1] == [entries[0]];
      assert entries[..1][1..] == [];
    } else {
      var p, q := entries[..k + 1], entries[..k];
      EchoesStep(debug, entries[1..], k - 1);
      assert p[1..] == entries[1..][..k];
      assert q[1..] == entries[1..][..k - 1];
      calc {
        Echoes(debug, p);
        EntryEcho(debug, p[0]) + Echoes(debug, p[1..]);
        EntryEcho(debug, p[0]) + (Echoes(debug, q[1..]) + EntryEcho(debug, entries[k]));
        (EntryEcho(debug, q[0]) + Echoes(debug, q[1..])) + EntryEcho(debug, entries[k]);
        Echoes(debug, q) + EntryEcho(debug, entries[k]);
      }
    }
  }
}
