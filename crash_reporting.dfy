/**
 * The `uncaughtException` handler of error-tracker.js: it takes the topmost
 * stack frame of the error, builds a crash report, mails it to the developer
 * and writes it to the `error` logger, and then returns so that the process
 * keeps running.
 *
 * The stack parser is not modelled: its output, the frames, comes with the
 * error. The mail transport is an outbox of submitted mails; delivery and its
 * callback are not modelled.
 */
module CrashReporting {
  import opened Wrappers
  import opened Js
  import opened Text
  import opened Logging

  /** One parsed stack frame: what `getFileName()` and `getFunctionName()` return. */
  datatype Frame = Frame(fileName: Value, functionName: Value)

  /**
   * An uncaught error: its `message`, its `stack` text, and the frames the
   * stack parser yields for it (none for a thrown value without a stack).
   */
  datatype Thrown = Thrown(message: Value, stack: Value, frames: seq<Frame>)

  const Anonymous := "<anonymous>"

  /** `getFunctionName() || '<anonymous>'`: the frame's name when it is a non-empty string. */
  function FunctionName(frame: Frame): (name: string)
    ensures name != ""
    ensures Truthy(frame.functionName) ==> name == frame.functionName.s
    ensures !Truthy(frame.functionName) ==> name == Anonymous
  {
    OrElse(frame.functionName, Anonymous)
  }

  /** The fields of one crash, as they are inserted into the mail and the log message. */
  datatype CrashReport = CrashReport(file: string, func: string, message: string, datetime: string, stack: string)

  /** The report of an error whose stack has a topmost frame, taken at time `datetime`. */
  function ReportOf(err: Thrown, datetime: string): CrashReport
    requires |err.frames| > 0
  {
    var top := err.frames[0];
    CrashReport(Render(top.fileName), FunctionName(top), Render(err.message), datetime, Render(err.stack))
  }

  /**
   * Only the topmost frame matters: two errors with the same message, stack
   * and topmost frame give the same report whatever their other frames, and
   * the function name is never empty.
   */
  lemma ReportUsesTopFrameOnly(err1: Thrown, err2: Thrown, datetime: string)
    requires |err1.frames| > 0 && |err2.frames| > 0
    requires err1.frames[0] == err2.frames[0]
    requires err1.message == err2.message && err1.stack == err2.stack
    ensures ReportOf(err1, datetime) == ReportOf(err2, datetime)
    ensures ReportOf(err1, datetime).func != ""
    ensures ReportOf(err1, datetime).file == Render(err1.frames[0].fileName)
  {
  }

  /** File, function, message and datetime are each one line (the stack may span many). */
  predicate SingleLineFields(report: CrashReport) {
    '\n' !in report.file && '\n' !in report.func && '\n' !in report.message && '\n' !in report.datetime
  }

  /** A mail handed to the transport. */
  datatype Mail = Mail(from: Value, to: Value, subject: string, text: string)

  const SubjectPrefix := "Uncaught Exception in "

  function Subject(report: CrashReport): string {
    SubjectPrefix + report.file
  }

  function MailBody(report: CrashReport): string {
    "Error in file: " + report.file
    + "\nFunction: " + report.func
    + "\nMessage: " + report.message
    + "\nDatetime: " + report.datetime
    + "\nStack Trace:\n" + report.stack
  }

  /**
   * The mail `sendErrorEmail` submits, from the sender to the developer
   * address read from the environment: its subject names the crash's file and
   * its body gives back the whole report.
   */
  function ComposeMail(from: Value, to: Value, report: CrashReport): (mail: Mail)
    ensures mail.from == from && mail.to == to
    ensures StripPrefix(SubjectPrefix, mail.subject) == Some(report.file)
    ensures Contains(mail.text, report.message)
    ensures SingleLineFields(report) ==> ParseBody(mail.text) == Some(report)
  {
    var text := MailBody(report);
    var before := "Error in file: " + report.file + "\nFunction: " + report.func + "\nMessage: ";
    var after := "\nDatetime: " + report.datetime + "\nStack Trace:\n" + report.stack;
    assert text == before + report.message + after;
    ContainsMiddle(before, report.message, after);
    StripPrefixOf(SubjectPrefix, report.file);
    assert SingleLineFields(report) ==> ParseBody(text) == Some(report) by {
      if SingleLineFields(report) {
        BodyRoundTrip(report);
      }
    }
    Mail(from, to, Subject(report), text)
  }

  /** One labelled line of the mail body: the text after `heading` up to the next newline, and the rest. */
  function Field(heading: string, s: string): Option<(string, string)> {
    match StripPrefix(heading, s)
    case None => None
    case Some(rest) => SplitOn(rest, '\n')
  }

  lemma FieldOf(heading: string, value: string, rest: string)
    requires '\n' !in value
    ensures Field(heading, heading + value + "\n" + rest) == Some((value, rest))
  {
    assert heading + value + "\n" + rest == heading + (value + "\n" + rest);
    StripPrefixOf(heading, value + "\n" + rest);
    SplitOnFirst(value, '\n', rest);
  }

  /** Reads a mail body back into the report: the inverse of MailBody. */
  function ParseBody(text: string): Option<CrashReport> {
    match Field("Error in file: ", text)
    case None => None
    case Some((file, s1)) =>
      match Field("Function: ", s1)
      case None => None
      case Some((func, s2)) =>
        match Field("Message: ", s2)
        case None => None
        case Some((message, s3)) =>
          match Field("Datetime: ", s3)
          case None => None
          case Some((datetime, s4)) =>
            match StripPrefix("Stack Trace:\n", s4)
            case None => None
            case Some(stack) => Some(CrashReport(file, func, message, datetime, stack))
  }

  /**
   * The body has a fixed shape that gives every field back: when file,
   * function, message and datetime are single lines, the body determines the
   * whole report, the stack trace included.
   */
  lemma BodyRoundTrip(report: CrashReport)
    requires SingleLineFields(report)
    ensures ParseBody(MailBody(report)) == Some(report)
  {
    var s4 := "Stack Trace:\n" + report.stack;
    var s3 := "Datetime: " + report.datetime + "\n" + s4;
    var s2 := "Message: " + report.message + "\n" + s3;
    var s1 := "Function: " + report.func + "\n" + s2;
    var body := MailBody(report);
    calc {
      body;
      "Error in file: " + report.file + "\nFunction: " + report.func + "\nMessage: " + report.message
        + "\nDatetime: " + report.datetime + ("\nStack Trace:\n" + report.stack);
      "Error in file: " + report.file + "\nFunction: " + report.func + "\nMessage: " + report.message
        + ("\n" + s3);
      "Error in file: " + report.file + "\nFunction: " + report.func + ("\n" + s2);
      "Error in file: " + report.file + "\n" + s1;
    }
    FieldOf("Error in file: ", report.file, s1);
    FieldOf("Function: ", report.func, s2);
    FieldOf("Message: ", report.message, s3);
    FieldOf("Datetime: ", report.datetime, s4);
    StripPrefixOf("Stack Trace:\n", report.stack);
    assert Field("Error in file: ", body) == Some((report.file, s1));
  }

  /** The text the handler logs: `Uncaught Exception in <file> [<func>]: <message>` and the stack. */
  function LogMessage(report: CrashReport): string {
    SubjectPrefix + report.file + " [" + report.func + "]: " + report.message + "\n" + report.stack
  }

  /** Reads a logged crash message back into its file, function, message and stack. */
  function ParseLogMessage(text: string): Option<(string, string, string, string)> {
    match StripPrefix(SubjectPrefix, text)
    case None => None
    case Some(s1) =>
      match SplitOn(s1, '[')
      case None => None
      case Some((fileSpace, s2)) =>
        if fileSpace == [] || fileSpace[|fileSpace| - 1] != ' ' then None
        else
          match SplitOn(s2, ']')
          case None => None
          case Some((func, s3)) =>
            match StripPrefix(": ", s3)
            case None => None
            case Some(s4) =>
              match SplitOn(s4, '\n')
              case None => None
              case Some((message, stack)) =>
                Some((fileSpace[..|fileSpace| - 1], func, message, stack))
  }

  /**
   * The logged message starts with the mail's subject, so the log and the mail
   * name the same file; and it gives back the file, the function, the message
   * and the stack when the file has no `[`, the function no `]` and the
   * message is one line.
   */
  lemma LogMessageRoundTrip(report: CrashReport)
    requires '[' !in report.file && ']' !in report.func && '\n' !in report.message
    ensures Subject(report) <= LogMessage(report)
    ensures ParseLogMessage(LogMessage(report))
         == Some((report.file, report.func, report.message, report.stack))
  {
    var s4 := report.message + "\n" + report.stack;
    var s3 := ": " + s4;
    var s2 := report.func + "]" + s3;
    var fileSpace := report.file + " ";
    var s1 := fileSpace + "[" + s2;
    assert LogMessage(report) == SubjectPrefix + s1;
    assert LogMessage(report) == Subject(report) + (" [" + s2);
    StripPrefixOf(SubjectPrefix, s1);
    assert '[' !in fileSpace;
    SplitOnFirst(fileSpace, '[', s2);
    assert fileSpace[..|fileSpace| - 1] == report.file;
    SplitOnFirst(report.func, ']', s3);
    StripPrefixOf(": ", s4);
    SplitOnFirst(report.message, '\n', report.stack);
  }

  /** The tag of the logger the handler writes to. */
  const ErrorTag := "error"

  /** The file the handler's logger writes to when it is created at time `now`. */
  function ErrorLogFile(now: string): string {
    FileName(ErrorTag, now)
  }

  /** The line the handler's `logger.error(…)` call writes, at time `timestamp`. */
  function ErrorLine(report: CrashReport, timestamp: string): string {
    FormatRecord(Record(timestamp, Error, LogMessage(report), Str(ErrorTag)))
  }

  /**
   * The handler's log line is an error-level record tagged `error` whose
   * message is the crash's log message.
   */
  lemma ErrorLineReadsBack(report: CrashReport, timestamp: string)
    requires ' ' !in timestamp
    ensures ParseLine(ErrorLine(report, timestamp))
         == Some(LogLine(timestamp, Error, Some(ErrorTag), LogMessage(report)))
  {
    LineRoundTrip(Record(timestamp, Error, LogMessage(report), Str(ErrorTag)));
  }

  /** How a handler invocation ends: it returns, or the property access on a missing frame throws. */
  datatype HandlerOutcome = Returned | ThrewTypeError

  /**
   * The environment variables `sendErrorEmail` reads on every call:
   * `SENDER_EMAIL` and `DEVELOPER_EMAIL`, each possibly unset.
   */
  datatype MailEnv = MailEnv(sender: Value, developer: Value)

  /** The process-wide tracker: the log sinks and the mails submitted so far. */
  class ErrorTracker {
    const sinks: Sinks
    var outbox: seq<Mail>

    constructor (sinks: Sinks)
      ensures this.sinks == sinks
      ensures outbox == []
    {
      this.sinks := sinks;
      outbox := [];
    }

    /** `sendErrorEmail`: submits one mail; its delivery is not awaited. */
    method SendErrorEmail(env: MailEnv, report: CrashReport)
      modifies this`outbox
      ensures outbox == old(outbox) + [ComposeMail(env.sender, env.developer, report)]
    {
      outbox := outbox + [ComposeMail(env.sender, env.developer, report)];
    }

    /**
     * The `uncaughtException` handler for `err`, with `env` the mail
     * environment as it reads at this call. `datetime` is the report's
     * time, `loggerNow` the time the `error` logger is created (it picks the
     * file) and `timestamp` the record's time. With a topmost frame it submits
     * exactly one mail and writes exactly one error line to the console and to
     * the `error` file of that hour, then returns without rethrowing. Without
     * one it throws before doing anything.
     */
    method HandleUncaught(env: MailEnv, err: Thrown, datetime: string, loggerNow: string, timestamp: string)
      returns (outcome: HandlerOutcome)
      modifies this`outbox, sinks
      ensures outcome == Returned <==> |err.frames| > 0
      ensures outcome == ThrewTypeError ==>
        outbox == old(outbox) && sinks.console == old(sinks.console) && sinks.files == old(sinks.files)
      ensures outcome == Returned ==>
        var report := ReportOf(err, datetime);
        var line := ErrorLine(report, timestamp);
        var file := ErrorLogFile(loggerNow);
        && outbox == old(outbox) + [ComposeMail(env.sender, env.developer, report)]
        && sinks.console == old(sinks.console) + [line]
        && sinks.files == old(sinks.files)[file := old(sinks.FileLines(file)) + [line]]
    {
      if |err.frames| == 0 {
        return ThrewTypeError;
      }
      var report := ReportOf(err, datetime);
      SendErrorEmail(env, report);
      var logger := new Logger(sinks, Str(ErrorTag), loggerNow);
      logger.Log(Error, LogMessage(report), Undefined, timestamp);
      outcome := Returned;
    }
  }

  /**
   * Two errors handled one after the other, under the same mail environment,
   * give two reports, in order: two mails and two error lines, neither merged
   * nor suppressed.
   */
  method HandleTwo(tracker: ErrorTracker, env: MailEnv, err1: Thrown, err2: Thrown,
                   datetime1: string, loggerNow1: string, timestamp1: string,
                   datetime2: string, loggerNow2: string, timestamp2: string)
    requires |err1.frames| > 0 && |err2.frames| > 0
    modifies tracker, tracker.sinks
    ensures tracker.outbox == old(tracker.outbox)
                            + [ComposeMail(env.sender, env.developer, ReportOf(err1, datetime1)),
                               ComposeMail(env.sender, env.developer, ReportOf(err2, datetime2))]
    ensures tracker.sinks.console == old(tracker.sinks.console)
                                   + [ErrorLine(ReportOf(err1, datetime1), timestamp1),
                                      ErrorLine(ReportOf(err2, datetime2), timestamp2)]
  {
    var outcome1 := tracker.HandleUncaught(env, err1, datetime1, loggerNow1, timestamp1);
    var outcome2 := tracker.HandleUncaught(env, err2, datetime2, loggerNow2, timestamp2);
  }
}
