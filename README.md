# c-logger, modelled in Dafny

A model of the single-header C logging utility `logger/logger.h`. It covers the
level catalog (the `LEVEL` enumeration, its display strings, its console colours
and the seven-entry level table every logger starts with). It covers how
`INIT_LOGGER` builds the log-file path with `strcat` into a 100-character
buffer. It covers the logger record and its lifecycle: create, log, query,
exit.

Modules:

- `Levels` (`levels.dfy`): the enumeration as its integer values. `Debug`
  is 0 and `Unknown` is 6. Any other integer can still be passed, as in C.
  The module holds `LevelString`, `LevelColor`, the ANSI colour codes and the
  initial level table.
- `CStrings` (`cstrings.dfy`): NUL-terminated buffers. `StrLen` is `strlen`.
  `Strcat` is `strcat` on an `array<char>`: two loops, proved against `CStr`,
  the string a buffer holds.
- `Streams` (`streams.dfy`): the open `FILE*` of the log file (`LogFile`)
  and standard output (`Console`). Each is the sequence of lines written to it.
- `Logging` (`logger.dfy`): the path join, the `struct LOGGER` record, the
  accessors and the operations `PRINT_LOG`, `INIT_LOGGER`, `LOG` and
  `EXIT_LOGGER`. `Session` composes them: create, log a sequence of calls,
  exit.

`struct LOGGER` is passed by value to every operation, so no operation can
change the caller's record. The model makes it a datatype. The `FILE*` it holds
is shared by every copy and is written and closed in place, so it is an object.
`EXIT_LOGGER` clears only its own copy's stream. The model returns that copy
as `local`. The caller's record still holds the now closed stream.

The separator test on line 104 is `c != '\\' || c != '/'`. No character fails
it, so a "/" is always inserted between root directory and file name, even
after a root that already ends in '/' or '\\'. `LogFilePath` reproduces the
test as written. `LogFilePathAlwaysAddsSlash` proves the consequence.

Two lines of the header do not do what they evidently aim at, and the model
reproduces the code as written:

- The test on line 104 evidently means to skip the separator when the root
  directory already ends in one, but it never skips it.
- `log_count` and the `count` field of every level-table entry are set to 0
  on creation (lines 119-128) and never written again, so every count
  accessor reads 0 for the logger's whole life.

Because `EXIT_LOGGER` receives its record by value (lines 246-256), the
caller's record still passes `IS_LOGGER_ACTIVE` after the exit, although its
stream is closed (`Session` proves this state). A second `EXIT_LOGGER` on the
caller's record would therefore `fclose` the stream again, which is undefined
behaviour, instead of printing "not initialized". No record returned by
`INIT_LOGGER` ever reaches that branch, since a record whose `fopen` failed
never gets past `INIT_LOGGER`. `ExitLogger` and `Log` require an active record's stream to be
open, so the model does not admit the second call.

## Model

| member | source | states |
|---|---|---|
| `Levels.LevelStringClassifies` | logger/logger.h:207-224 | the six named levels get six distinct display strings; a level shows as "UNKNOWN" exactly when it is not DEBUG..MESSAGE, including UNKNOWN and out-of-range values; every result is one of the seven names |
| `Levels.LevelColorClassifies` | logger/logger.h:169-191 | the six named levels get six distinct colours; a level is white exactly when it is not DEBUG..MESSAGE; magenta is never used |
| `Levels.InitialLevelsAgree` | logger/logger.h:120-128 | entry i of the initial table has level i, zero count, and the colour the console printer's switch gives level i |
| `CStrings.StrLen` | logger/logger.h:104 | `strlen` is the index of the first NUL: in bounds, a NUL there, no NUL before it |
| `CStrings.CStr` | logger/logger.h:101-108 | the string a buffer holds is the NUL-free prefix before its terminator, shorter than the buffer |
| `CStrings.CStrOfTerminated` | logger/logger.h:101 | a buffer whose prefix is a C string followed by a NUL holds exactly that string (so the zero-filled buffer holds "") |
| `CStrings.Strcat` | logger/logger.h:102-108 | `strcat` with room for the result leaves the buffer holding its old string followed by the appended one |
| `Logging.LogFilePathAlwaysAddsSlash` | logger/logger.h:104-106 | the separator test holds for every last character, so the path is always root + "/" + file; a root ending in '/' gives "//", one ending in '\\' gives "\\/" |
| `Logging.BuildLogPath` | logger/logger.h:101-108 | the successive `strcat` calls into the 100-character buffer produce exactly `LogFilePath`, which is root + "/" + file, a NUL-free string shorter than the buffer |
| `Logging.InitialRecord` | logger/logger.h:113-131 | a new record keeps root, name, stream and debug flag; its three times are the creation reading; the log count and all seven level counts are 0; the table's levels and colours match the catalog |
| `Logging.FreshRecordReadings` | logger/logger.h:197-243 | on a new record the active test holds iff fopen gave a stream; the count accessors read 0; the start time is the creation time; the end time is the creation time while active, else the current clock |
| `Logging.EndTimeNeverReportsExit` | logger/logger.h:239-243 | the end time never reports the exit: the caller's record, which keeps its stream, reads the creation time; the copy `EXIT_LOGGER` cleared reads the clock at the query |
| `Logging.ConsoleLineWrapsFileLine` | logger/logger.h:158-193 | a console echo is the file line of the same call wrapped in its level's colour code and the reset code; an unnamed level echoes in white as "UNKNOWN" |
| `Logging.PrintLog` | logger/logger.h:166-194 | appends exactly one console line: colour code of the level, timestamp, level string, message, reset |
| `Logging.InitLogger` | logger/logger.h:99-144 | when fopen fails: a FATAL "Failed to open log file" console line and process exit. Otherwise: a fresh stream on root + "/" + file holding only the opening banner, the initial record, and the cyan opening line on the console; file and console lines carry their own timestamps |
| `Logging.Log` | logger/logger.h:152-163 | on an inactive record: an ERROR console line and process exit, with no file write. On an active one: exactly one file line `<ts> <level string> <message>`, and a console echo iff the debug flag or debug_once is set. The record, counters included, is a value and is unchanged |
| `Logging.ExitLogger` | logger/logger.h:246-256 | active: the closing banner is written, the shared stream is closed, the cyan closing line is printed, and the callee's copy loses its stream. Inactive: only the red "not initialized" line, with the copy unchanged. The end time is never updated |
| `Logging.FileLines` | logger/logger.h:162 | a sequence of log calls yields exactly one file line per call |
| `Logging.FileLinesInOrder` | logger/logger.h:162 | the i-th file line is formatted from the i-th call, with that call's own timestamp |
| `Logging.Echoes` | logger/logger.h:158-160 | a sequence of log calls yields at most one console echo per call, and one per call when the debug flag is set |
| `Logging.EchoesAll` | logger/logger.h:158-160 | with the debug flag set, or debug_once on every call, the echoes are exactly the console lines of all calls in order |
| `Logging.EchoesNone` | logger/logger.h:158-160 | with the debug flag clear and debug_once clear on every call, nothing is echoed |
| `Logging.LogAll` | logger/logger.h:152-163 | N log calls on an active record append their N file lines in call order and their echoes, and leave the stream open |
| `Logging.Session` | logger/logger.h:99-256 | create, log N calls, exit, each line with its own timestamp: the file holds the opening banner, N lines in call order, then the closing banner, and is closed. The console holds the opening line, the echoes and the closing line. The caller's record is still the record it was created as: it holds the stream and every counter reads 0 |

## Left out

- File-system and terminal effects: `mkdir`, `fopen`, `fprintf`, `fclose` and `printf` become appends to a line sequence. Trailing newlines are not represented. Whether `fopen` succeeds is the parameter `opens` of `InitLogger`. The result of `mkdir` is ignored by the source and is not modelled.
- `GET_CURRENT_DATE_TIME` (logger/logger.h:259-269): wall-clock formatting with `localtime`/`strftime`, and its buffer that is never freed. Each formatted timestamp is an opaque string; every line written gets its own (`Stamps`, `Entry.at`).
- `Logging.InitLogger`: one `now` stands for the three `time(NULL)` readings of lines 116-118, which the C code takes separately.
- Characters: a Dafny `char` stands for one C `char` (one byte). `PathFits` counts characters, so text whose characters would take several bytes in C is out of scope; neither are messages holding a NUL, which no C string can.
- The `ctime` calls on lines 139 and 248: their results are discarded and they change no field, so they are not modelled.
- `exit(EXIT_FAILURE)`: an `exited` result of `InitLogger` and `Log`. The model does not stop the caller.
- Using a record after `EXIT_LOGGER` closed its stream: the caller's copy still holds the closed `FILE*`, and writing through it is undefined behaviour in C. `Log` and `ExitLogger` require that an active record's stream is open.
- `GET_LOGGER_LEVEL_COUNT` with a level outside 0..6 indexes past the table, which is undefined behaviour. `LevelCountOf` requires 0..6.
- Path overflow: `strcat` past the 100-character buffer is undefined behaviour, and so is an empty root directory (line 104 reads the character before it). `BuildLogPath` and `InitLogger` require a non-empty root and a path that fits with its terminator.
- `GET_LOGGER_START_TIME`, `IS_LOGGER_ACTIVE`, `GET_LOGGER_LOG_COUNT`: plain field reads (`StartTime`, `IsActive`, `LogCount`), stated through `FreshRecordReadings`, `Log` and `Session`.
- `DISPLAY_LOGGER_LEVELS` (logger/logger.h:227-231): a loop that only prints the level table to the console.
- `main.c`: a demo driver whose calls to `INIT_LOGGER` and `EXIT_LOGGER` do not match the declarations in the header.
- Integer widths: `int` counters are never changed and `time_t` readings are only stored, so both are unbounded integers.
