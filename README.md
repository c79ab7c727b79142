# error-tracker, modelled in Dafny

error-tracker is a small Node.js module with two jobs:

- **Per-tag loggers.** `getLogger(tag)` returns a logger that writes every record to the console and to an hourly file `logs/<tag>-<ISO hour>.log`. Each line has the form `<timestamp> [<level>] [<tag>]: <message>`.
- **A process-wide `uncaughtException` handler.** It takes the topmost stack frame of the error and mails a crash report to the developer. It also writes the report to the `error` logger. Then it returns, so the process keeps running.

The project models the string building and the handler's effects:

- `js.dfy` (`Js`): the JavaScript values that reach the templates (a string, `null` or `undefined`), with their truthiness and the text a template literal inserts for each.
- `text.dfy` (`Text`): containment, splitting at a separator and prefix stripping. The parsers below use them.
- `logging.dfy` (`Logging`):
  - the line format, with a parser that reads a line back;
  - the tag step that overwrites a tag given as metadata;
  - the hourly file name;
  - `Sinks`: the console and the log directory, as the lines appended to each;
  - `Logger`: a class whose tag and file are fixed when it is created.
- `crash_reporting.dfy` (`CrashReporting`):
  - frame extraction with the `<anonymous>` fallback;
  - the crash report, the mail and its body, with a parser for the body;
  - the logged crash message, with its parser;
  - `ErrorTracker`: a class holding the outbox of submitted mails, whose `HandleUncaught` method is the handler.

Time is an input. The handler reads the clock three times: the report's `datetime`, the moment the `error` logger is created (this picks the file) and the record's timestamp. Each reading is its own parameter. The stack parser is an input too: an error arrives with the frames the parser would return for it.

Two behaviours of the code are worth stating up front:

- Frame extraction is unguarded. The handler indexes frame `[0]` and calls `getFileName()` on it without a check. For a thrown value without a stack (`throw "boom"`), the parser returns no frames, so the handler throws a `TypeError` before it sends or logs anything. `HandleUncaught` returns `ThrewTypeError` in that case and changes nothing. Node's reaction to a handler that throws is outside the model.
- `getLogger()` uses the tag `default`, so its lines show `[default]`. Only `undefined` is replaced: `getLogger("")` keeps the empty tag, and its lines have no tag bracket.

## Model

| member | source | states |
|---|---|---|
| Logging.LoggerTag | error-tracker.js:22 | a logger's tag is never `undefined`: only an omitted tag is replaced by `default`, and `null` and the empty string are kept |
| Logging.LoggerTagCases | error-tracker.js:22-23 | for each kind of requested tag, the tag its lines show and the start of its file name: `undefined` shows `default` in `default-…`; `null` shows no tag in `null-…`; the empty string shows no tag in `-…`; any other string shows itself in `<tag>-…` |
| Logging.StampTag | error-tracker.js:28 | whatever tag the caller passed as metadata, the stamped record's line reads back to the record's timestamp, level and message and to the logger's tag alone; it shows no other tag |
| Logging.FormatRecord | error-tracker.js:17-19 | every line starts with `<timestamp> [<level>]` and ends with `: <message>` |
| Logging.LineRoundTrip | error-tracker.js:17-19 | a line reads back to its timestamp, level and message. It shows the tag exactly when the tag is truthy, so an empty or null tag leaves no bracket. Needs a timestamp without spaces and a tag without `]` |
| Logging.TagAndMessageRoundTrip | error-tracker.js:18 | the text after `[<level>]` is ` [<tag>]: <message>` for a truthy tag and `: <message>` otherwise, and it reads back to both |
| Logging.StampedLineShowsLoggerTag | error-tracker.js:28 | every line a logger with a truthy tag emits contains `[<its tag>]`, whatever tag the caller passed as metadata |
| Logging.DefaultLoggerLine | error-tracker.js:22-28 | `getLogger()` lines contain `[default]` and its file name starts with `default-` |
| Logging.FileName | error-tracker.js:23 | a file name starts with `<tag>-` and ends with `.log` |
| Logging.SameFileIff | error-tracker.js:23 | two file NAMES are equal exactly when the tags are equal and the ISO times agree on their first 13 characters (same date and hour). Minutes and seconds do not change the name, and distinct tags in one hour never share a name. Path normalisation can still map two names to one file (see "Left out") |
| Logging.Logger.constructor | error-tracker.js:22-36 | a logger's tag is the defaulted tag, and its file name is fixed from the creation time |
| Logging.Logger.Log | error-tracker.js:24-34 | one call appends the same formatted line, carrying the logger's tag, to the console and to the logger's file; other files are unchanged |
| CrashReporting.FunctionName | error-tracker.js:74 | the reported function is the frame's name when it is a non-empty string, and `<anonymous>` for a null, undefined or empty name; never empty |
| CrashReporting.ReportUsesTopFrameOnly | error-tracker.js:72-77 | the report built by `ReportOf` depends only on the topmost frame, the message and the stack: errors that agree on these give the same report |
| CrashReporting.ComposeMail | error-tracker.js:55-59 | the mail goes from the environment's sender to the environment's developer address. Its subject (`Subject`) is `Uncaught Exception in ` followed by exactly the crash's file. Its body (`MailBody`) contains the error message verbatim, and reads back to the whole report when file, function, message and datetime are single lines |
| CrashReporting.BodyRoundTrip | error-tracker.js:59 | the body built by `MailBody` has the fixed shape file / function / message / datetime / stack trace. When the first four are single lines, it reads back to the whole report |
| CrashReporting.LogMessageRoundTrip | error-tracker.js:80 | the message built by `LogMessage` starts with the mail's subject. It reads back to file, function, message and stack when the file has no `[`, the function no `]` and the message is one line |
| CrashReporting.ErrorLineReadsBack | error-tracker.js:79-80 | the handler's line is an error-level record tagged `error` whose message is the crash's log message |
| CrashReporting.ErrorTracker.constructor | error-tracker.js:48-51 | the mail transport created at load time has nothing submitted yet (empty outbox); the tracker writes to the given sinks |
| CrashReporting.ErrorTracker.SendErrorEmail | error-tracker.js:53-68 | one call reads the sender and recipient from the environment as it is at that call, and appends exactly one mail, built from the report, to the outbox |
| CrashReporting.ErrorTracker.HandleUncaught | error-tracker.js:71-82 | with a topmost frame, the handler builds the report (`ReportOf`) and does four things, then returns normally: one mail under the environment of that call, one error line on the console, the same line in the `error` file of the logger's hour, nothing else. Without a frame, it throws and changes nothing |
| CrashReporting.HandleTwo | error-tracker.js:71-82 | two errors handled in a row give two mails and two error lines, in order, neither merged nor suppressed |

## Left out

- Creating the log directory at load time (`existsSync` and `mkdirSync`) is filesystem I/O and is not modelled. Files are keyed by their name inside the directory, and a file exists once a line is written to it.
- `path.join` normalisation is not modelled; the model keys files by the name before normalisation. A tag containing `/` or `..` would name a file outside the log directory in the source. Normalisation also maps distinct names to one file: the tags `a//b` and `a/b`, `./x` and `x`, and `x/../y` and `y` each write to the same file in the same hour. The file-name injectivity proved here is about names, not about files.
- The logging backend is not modelled: level filtering at `info`, timestamp generation, and the console and file transports with their write failures and their choice of stdout or stderr. The console is one sequence of lines. Only the three levels the tracker uses (`error`, `warn`, `info`) exist, and all of them pass the `info` threshold.
- Creating the mail client and its transport, actual delivery, and the `sendMail` callback are not modelled: they are network I/O and asynchronous completion. A submitted mail is an entry in the outbox. The `console.info('Sending email')` diagnostic and the callback's console output are left out with them.
- Registering the handler with `process.on` is a runtime hook and is not modelled. `HandleUncaught` models the handler body.
- The stack parser is a foreign library: its output is an input. A missing frame is the only failure modelled. A thrown `null` or `undefined`, which makes the parser itself throw, is covered by the same `ThrewTypeError` outcome.
- JavaScript values other than strings, `null` and `undefined` (numbers, objects) as tags, names or messages are not modelled.
- index.js is a usage demo. Its metadata tags are covered by `StampedLineShowsLoggerTag`.
